/** The records of the editor and the publisher, and the fixtures the editor starts from. */
module Types {

  /** One promotional card. */
  datatype Campaign = Campaign(
    id: string,
    title: string,
    discountType: string,
    description: string,
    link: string,
    imageUrl: string,
    buttonText: string,
    accentColor: string,
    isActive: bool)

  /** The page-level settings; the renderer reads only `pageTitle` and `description`. */
  datatype SiteSettings = SiteSettings(
    pageTitle: string,
    description: string,
    headerImageUrl: string,
    primaryColor: string)

  /** Where and as whom to publish. */
  datatype WPSettings = WPSettings(
    siteUrl: string,
    pageId: string,
    username: string,
    appPassword: string)

  /** The list the editor shows before anything has been loaded: one active and one inactive card. */
  const DefaultCampaigns: seq<Campaign> := [
    Campaign("1", "Çocuk Kitaplarında Büyük Fırsat", "%50 İndirim",
      "En sevilen çocuk kitaplarında bugüne özel net %50 indirim fırsatını kaçırmayın.",
      "https://www.hepsiburada.com",
      "https://images.unsplash.com/photo-1512820790803-83ca734da794?auto=format&fit=crop&q=80&w=400",
      "Hemen İncele", "#FF6000", true),
    Campaign("2", "Penti Marka Ürünler", "1 Alana 1 Bedava",
      "Penti ürünlerinde beklenen kampanya başladı. Sepette 1 alana 1 bedava avantajı sizi bekliyor.",
      "https://www.hepsiburada.com",
      "https://images.unsplash.com/photo-1582562124811-c09040d0a901?auto=format&fit=crop&q=80&w=400",
      "Fırsatı Yakala", "#1E40AF", false)
  ]
}
