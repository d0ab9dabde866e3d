/**
 * The standalone page renderer: campaigns and site settings in, one HTML document out.
 * Every field is spliced into the markup exactly as given, with no escaping; the markup
 * between the fields is the renderer's literal text, split into the constants below.
 */
module HtmlGenerator {
  import opened Types
  import opened Strings
  import Seqs
  import Decimal

  // ---------------------------------------------------------------------------
  // Literal markup. Text between interpolations, in document order.
  // ---------------------------------------------------------------------------

  /** Opening of the quick-links strip: the scroll container and the flex row. */
  const QuickLinksOpen: string := @"
    <div class=""w-full overflow-x-auto no-scrollbar pb-2 md:pb-6 -mt-2 mb-8 md:mb-12"">
      <div class=""flex gap-3 px-6 w-max mx-auto md:mx-0 md:w-full md:justify-center md:flex-wrap"">
        "
  /** Closing of the quick-links strip. */
  const QuickLinksClose: string := @"
      </div>
    </div>
  "
  const QuickLinkStart: string := @"
          <a "
  /** Class of a quick-link pill, and the opening of its title span. */
  const QuickLinkClassAttr: string := @" class=""shrink-0 inline-flex items-center gap-2 bg-white px-4 py-2.5 rounded-full shadow-sm hover:shadow-md border border-slate-200 transition-all text-xs md:text-sm group active:scale-95 duration-200 whitespace-nowrap snap-center"">
             <span class=""font-bold text-slate-700"">"
  /** End of the title span, and the opening of the discount span. */
  const QuickLinkTitleEnd: string := @"</span>
             <span class=""text-[9px] md:text-[10px] font-black px-2 py-0.5 rounded-full bg-slate-900 text-white transition-colors uppercase tracking-tight"">"
  const QuickLinkEnd: string := @"</span>
          </a>
        "
  const CardStart: string := @"
    <div "
  /** The card classes shared by both branches. */
  const CardClassOpen: string := @" class=""bg-white rounded-[2rem] md:rounded-[2.5rem] shadow-[0_15px_40px_-12px_rgba(0,0,0,0.1)] border border-gray-100 overflow-hidden transition-all duration-500 "
  /** The rest of the card classes, the image frame, and the opening of the image tag. */
  const CardClassTail: string := @" flex flex-col group h-full scroll-mt-6"">
      <div class=""relative h-48 md:h-72 overflow-hidden"">
        <img src="""
  const ImgAltOpen: string := @""" alt="""
  /** The image classes shared by both branches. */
  const ImgClassOpen: string := @""" class=""w-full h-full object-cover transition-transform duration-700 group-hover:scale-110 "
  const ImgEnd: string := @""" />
        
        "
  /** Active branch: the discount badge, up to its inline colour. */
  const BadgeOpen: string := @"
          <div class=""absolute top-4 left-4 md:top-6 md:left-6"">
             <div class=""backdrop-blur-xl bg-white/90 border border-white/40 px-3 py-1.5 md:px-4 md:py-2 rounded-full shadow-2xl flex items-center justify-center gap-2 animate-bounce"">
                <span class=""text-[10px] md:text-xs font-black tracking-tight uppercase leading-none mt-0.5"" "
  /** Active branch: the collaboration badge, up to its text. */
  const CollabOpen: string := @"
             </div>
          </div>
          
          <div class=""absolute top-4 right-4 md:top-6 md:right-6"">
             <div class=""bg-black/20 backdrop-blur-md border border-white/20 text-white px-3 py-1 rounded-full"">
                <p class=""text-[9px] font-bold uppercase tracking-widest opacity-90"">"
  const CollabClose: string := @"</p>
             </div>
          </div>
        "
  /** Inactive branch: the dimming overlay, up to its label. */
  const OverlayOpen: string := @"
          <div class=""absolute inset-0 bg-black/40 backdrop-blur-[3px] flex items-center justify-center"">
            <span class=""bg-white/10 border border-white/30 text-white px-6 py-2 md:px-8 md:py-3 rounded-full text-xs md:text-sm font-black uppercase tracking-[0.3em] backdrop-blur-xl"">"
  const OverlayClose: string := @"</span>
          </div>
        "
  /** Closing of the image frame and opening of the card body. */
  const CardBodyOpen: string := @"
      </div>
      
      <div class=""p-5 md:p-10 flex flex-col flex-grow text-center md:text-left items-center md:items-start"">
        "
  const CardHeadingTag: string := @"<h3 class=""text-lg md:text-3xl font-black text-gray-900 mb-2 md:mb-4 leading-tight tracking-tight px-2 md:px-0"">"
  const CardHeadingGap: string := @"
        "
  const DescriptionTag: string := @"<p class=""text-xs md:text-base text-gray-500 mb-6 md:mb-10 flex-grow leading-relaxed font-medium line-clamp-3 md:line-clamp-none px-2 md:px-0"">
          "
  const DescriptionEnd: string := @"
        </p>"
  const DescriptionClose: string := @"
        
        "
  const CtaStart: string := @"
          <a "
  /** Active branch: the call-to-action anchor after its href, up to its inline style. */
  const CtaClassAttr: string := @" target=""_blank"" rel=""noopener noreferrer"" 
             class=""w-full group/btn relative overflow-hidden py-4 md:py-5 px-8 rounded-full md:rounded-2xl text-center font-black text-white transition-all shadow-xl hover:shadow-2xl active:scale-[0.96] flex items-center justify-center gap-2 uppercase tracking-wide text-xs md:text-sm""
             style="""
  const CtaShadow: string := @"; box-shadow: 0 10px 25px -5px "
  const CtaLabelOpen: string := @"
            <span class=""relative z-10 flex items-center justify-center gap-2 leading-none"">
                "
  /** Active branch: the arrow icon and the closing of the anchor. */
  const CtaClose: string := @"
                <svg xmlns=""http://www.w3.org/2000/svg"" class=""h-4 w-4 transition-transform group-hover/btn:translate-x-1"" viewBox=""0 0 20 20"" fill=""currentColor"">
                    <path fill-rule=""evenodd"" d=""M10.293 3.293a1 1 0 011.414 0l6 6a1 1 0 010 1.414l-6 6a1 1 0 01-1.414-1.414L14.586 11H3a1 1 0 110-2h11.586l-4.293-4.293a1 1 0 010-1.414z"" clip-rule=""evenodd"" />
                </svg>
            </span>
          </a>
        "
  /** Inactive branch: the disabled placeholder block, up to its text. */
  const NoOfferOpen: string := @"
          <div class=""w-full py-4 md:py-5 px-8 rounded-full md:rounded-2xl text-center font-black bg-gray-100 text-gray-400 cursor-not-allowed uppercase tracking-wide text-xs md:text-sm"">
            "
  const NoOfferClose: string := @"
          </div>
        "
  const CardEnd: string := @"
      </div>
    </div>
  "
  /** From after the doctype to the title element: the html and head openings and the meta tags. */
  const HeadOpen: string := @"
<html lang=""tr"" class=""scroll-smooth"">
<head>
    <meta charset=""UTF-8"">
    <meta name=""viewport"" content=""width=device-width, initial-scale=1.0"">
    "
  /** After the title: the Tailwind script, the font, the inline style, and the header up to the heading. */
  const HeadRest: string := @"
    <script src=""https://cdn.tailwindcss.com""></script>
    <link href=""https://fonts.googleapis.com/css2?family=Inter:wght@400;500;600;700;800;900&display=swap"" rel=""stylesheet"">
    <style>
        body { font-family: 'Inter', sans-serif; background-color: #f8fafc; color: #1e293b; overflow-x: hidden; }
        .bg-pattern { background: radial-gradient(circle at top left, #ffffff, #f1f5f9); }
        /* Hide scrollbar for cleaner look */
        .no-scrollbar::-webkit-scrollbar { display: none; }
        .no-scrollbar { -ms-overflow-style: none; scrollbar-width: none; }
    </style>
</head>
<body class=""min-h-screen bg-pattern"">
    <header class=""bg-white/80 backdrop-blur-xl border-b border-gray-100 relative z-50"">
        <div class=""max-w-6xl mx-auto px-4 md:px-6 py-8 md:py-10 text-center"">
            "
  const HeadingTag: string := @"<h1 class=""text-2xl md:text-6xl font-black text-gray-900 mb-3 md:mb-5 tracking-tighter leading-tight"">"
  const HeadingGap: string := @"
            "
  const SubheadingTag: string := @"<p class=""text-gray-500 max-w-2xl mx-auto font-medium text-xs md:text-xl leading-relaxed px-4 line-clamp-3 md:line-clamp-none"">"
  /** Closing of the heading block, up to where the quick-links strip goes. */
  const QuickLinksSlot: string := @"
        </div>
        
        <!-- Quick Nav Strip -->
        "
  /** Closing of the header and opening of the main grid, up to where the cards go. */
  const CardsSlot: string := @"
    </header>

    <main class=""max-w-7xl mx-auto px-4 md:px-12 py-6 md:py-12 pb-32"">
        <div class=""grid grid-cols-1 md:grid-cols-2 gap-5 md:gap-16"">
            "
  /** Closing of the grid and main, and the footer up to the copyright text. */
  const FooterOpen: string := @"
        </div>
    </main>

    <footer class=""bg-white border-t border-gray-100 py-12 md:py-20 mt-auto"">
        <div class=""max-w-6xl mx-auto px-6 text-center"">
            <p class=""text-gray-400 text-xs md:text-sm font-black uppercase tracking-[0.4em] mb-4"">"
  const FooterClose: string := @"
        </div>
    </footer>
</body>
"

  /** Text of the collaboration badge on an active card. */
  const CollabMarker: string := "#İşbirliği"
  /** Label of the overlay on an inactive card. */
  const ComingSoonLabel: string := "YAKINDA"
  /** Text of the disabled placeholder that replaces the button on an inactive card. */
  const NoOfferLabel: string := "Şu an indirim yok"
  /** Classes only an active card gets. */
  const HoverClasses: string := "hover:-translate-y-3 hover:shadow-2xl"
  /** Class only an inactive card gets. */
  const DimmedClass: string := "opacity-80"
  /** Image class only an inactive card gets. */
  const GrayscaleClass: string := "grayscale"
  const Doctype: string := "<!DOCTYPE html>"
  const HtmlClose: string := "</html>"

  // ---------------------------------------------------------------------------
  // Attributes and small elements built from fields.
  // ---------------------------------------------------------------------------

  /** The fragment identifier of a campaign's card. */
  function CardAnchor(id: string): string { "campaign-" + id }

  function Href(url: string): string { "href=\"" + url + "\"" }

  function IdAttr(anchor: string): string { "id=\"" + anchor + "\"" }

  function TitleElement(pageTitle: string): string { "<title>" + pageTitle + "</title>" }

  function Heading(pageTitle: string): string { HeadingTag + pageTitle + "</h1>" }

  function Subheading(description: string): string { SubheadingTag + description + "</p>" }

  /** The footer line: the year, a space, the page title. */
  function Copyright(year: nat, pageTitle: string): string {
    "&copy; " + Decimal.NatToString(year) + " " + pageTitle + "</p>"
  }

  function CardHeading(title: string): string { CardHeadingTag + title + "</h3>" }

  /** The card's description paragraph; an empty description gives an empty paragraph. */
  function DescriptionParagraph(description: string): string {
    DescriptionTag + description + DescriptionEnd
  }

  function DiscountBadge(c: Campaign): string {
    "style=\"color: " + c.accentColor + "\">" + c.discountType + "</span>"
  }

  function ButtonLabel(buttonText: string): string {
    "<span className=\"mt-0.5\">" + buttonText + "</span>"
  }

  // ---------------------------------------------------------------------------
  // The quick-links strip.
  // ---------------------------------------------------------------------------

  predicate IsActive(c: Campaign) { c.isActive }

  /** `campaigns.filter(c => c.isActive)` */
  function ActiveCampaigns(cs: seq<Campaign>): seq<Campaign>
  {
    Seqs.Filter(cs, IsActive)
  }

  function QuickLinkParts(c: Campaign): seq<string>
  {
    [QuickLinkStart, Href("#" + CardAnchor(c.id)), QuickLinkClassAttr, c.title,
     QuickLinkTitleEnd, c.discountType, QuickLinkEnd]
  }

  /** One pill of the strip: an in-page link to the card, showing title and discount. */
  function QuickLink(c: Campaign): string { Concat(QuickLinkParts(c)) }

  /** The strip: one pill per active campaign, or nothing at all when none is active. */
  function QuickLinksHtml(cs: seq<Campaign>): string
  {
    var active := ActiveCampaigns(cs);
    if |active| > 0 then Concat([QuickLinksOpen, JoinMap(active, QuickLink), QuickLinksClose]) else ""
  }

  // ---------------------------------------------------------------------------
  // Cards.
  // ---------------------------------------------------------------------------

  /** Over the image of an active card: the discount badge and the collaboration badge. */
  function ActiveBadges(c: Campaign): string
  {
    Concat([BadgeOpen, DiscountBadge(c), CollabOpen, CollabMarker, CollabClose])
  }

  /** Over the image of an inactive card: the dimming overlay with its label. */
  function ComingSoonOverlay(): string { OverlayOpen + ComingSoonLabel + OverlayClose }

  /** The button of an active card: a link to `link`, coloured with `accentColor`, labelled `buttonText`. */
  function CallToAction(c: Campaign): string
  {
    Concat([CtaStart, Href(c.link), CtaClassAttr, "background-color: " + c.accentColor, CtaShadow,
            c.accentColor + "66\">", CtaLabelOpen, ButtonLabel(c.buttonText), CtaClose])
  }

  /** What replaces the button on an inactive card. */
  function NoOfferPlaceholder(): string { NoOfferOpen + NoOfferLabel + NoOfferClose }

  function CardParts(c: Campaign): seq<string>
  {
    [CardStart, IdAttr(CardAnchor(c.id)), CardClassOpen, if c.isActive then HoverClasses else DimmedClass,
     CardClassTail, c.imageUrl, ImgAltOpen, c.title, ImgClassOpen, if c.isActive then "" else GrayscaleClass, ImgEnd,
     if c.isActive then ActiveBadges(c) else ComingSoonOverlay(),
     CardBodyOpen, CardHeading(c.title), CardHeadingGap, DescriptionParagraph(c.description), DescriptionClose,
     if c.isActive then CallToAction(c) else NoOfferPlaceholder(),
     CardEnd]
  }

  /** One card, with the active or the inactive branch. */
  function Card(c: Campaign): string { Concat(CardParts(c)) }

  /** `campaigns.map(card).join('')`: every campaign, in input order. */
  function CardsHtml(cs: seq<Campaign>): string { JoinMap(cs, Card) }

  // ---------------------------------------------------------------------------
  // The document.
  // ---------------------------------------------------------------------------

  function PageParts(settings: SiteSettings, year: nat, quickLinks: string, cards: string): seq<string>
  {
    [Doctype, HeadOpen, TitleElement(settings.pageTitle), HeadRest, Heading(settings.pageTitle), HeadingGap,
     Subheading(settings.description), QuickLinksSlot, quickLinks, CardsSlot, cards, FooterOpen,
     Copyright(year, settings.pageTitle), FooterClose, HtmlClose]
  }

  /** The shell around the strip and the cards. */
  function Page(settings: SiteSettings, year: nat, quickLinks: string, cards: string): string
  {
    Concat(PageParts(settings, year, quickLinks, cards))
  }

  /** `generateStandaloneHTML(campaigns, settings)` in the given calendar year. */
  function GenerateStandaloneHtml(cs: seq<Campaign>, settings: SiteSettings, year: nat): string
  {
    Page(settings, year, QuickLinksHtml(cs), CardsHtml(cs))
  }

  // ---------------------------------------------------------------------------
  // Properties.
  // ---------------------------------------------------------------------------

  /**
   * The active list is the input with the inactive campaigns dropped and nothing moved:
   * around any position it is the active campaigns before, that campaign if active, and
   * the active campaigns after.
   */
  lemma ActiveCampaignsAround(cs: seq<Campaign>, i: nat)
    requires i < |cs|
    ensures ActiveCampaigns(cs)
         == ActiveCampaigns(cs[..i]) + (if cs[i].isActive then [cs[i]] else []) + ActiveCampaigns(cs[i + 1..])
  {
    assert cs == cs[..i] + ([cs[i]] + cs[i + 1..]);
    Seqs.FilterAppend(cs[..i], [cs[i]] + cs[i + 1..], IsActive);
    Seqs.FilterAppend([cs[i]], cs[i + 1..], IsActive);
    Seqs.FilterSingleton(cs[i], IsActive);
  }

  /** The strip is the empty string exactly when no campaign is active: no empty wrapper is emitted. */
  lemma QuickLinksEmptyIffNoneActive(cs: seq<Campaign>)
    ensures QuickLinksHtml(cs) == "" <==> forall i :: 0 <= i < |cs| ==> !cs[i].isActive
  {
    Seqs.FilterEmpty(cs, IsActive);
    var active := ActiveCampaigns(cs);
    if |active| > 0 {
      Concat3(QuickLinksOpen, JoinMap(active, QuickLink), QuickLinksClose);
    }
  }

  /** With no active campaign the document is the shell with an empty strip. */
  lemma DocumentWithoutActiveCampaigns(cs: seq<Campaign>, settings: SiteSettings, year: nat)
    requires forall i :: 0 <= i < |cs| ==> !cs[i].isActive
    ensures GenerateStandaloneHtml(cs, settings, year) == Page(settings, year, "", CardsHtml(cs))
  {
    QuickLinksEmptyIffNoneActive(cs);
  }

  /** The strip around its pills. */
  lemma StripAroundPills(cs: seq<Campaign>)
    requires |ActiveCampaigns(cs)| > 0
    ensures QuickLinksHtml(cs) == QuickLinksOpen + JoinMap(ActiveCampaigns(cs), QuickLink) + QuickLinksClose
  {
    Concat3(QuickLinksOpen, JoinMap(ActiveCampaigns(cs), QuickLink), QuickLinksClose);
  }

  /** The document around the strip. */
  lemma DocumentAroundStrip(cs: seq<Campaign>, settings: SiteSettings, year: nat) returns (pre: string, post: string)
    ensures GenerateStandaloneHtml(cs, settings, year) == pre + QuickLinksHtml(cs) + post
  {
    var parts := PageParts(settings, year, QuickLinksHtml(cs), CardsHtml(cs));
    assert parts[8] == QuickLinksHtml(cs);
    pre, post := ConcatSplit(parts, 8);
  }

  /** The document around the cards. */
  lemma DocumentAroundCards(cs: seq<Campaign>, settings: SiteSettings, year: nat) returns (pre: string, post: string)
    ensures GenerateStandaloneHtml(cs, settings, year) == pre + CardsHtml(cs) + post
  {
    var parts := PageParts(settings, year, QuickLinksHtml(cs), CardsHtml(cs));
    assert parts[10] == CardsHtml(cs);
    pre, post := ConcatSplit(parts, 10);
  }

  /** The pill of an active campaign occurs in the strip. */
  lemma QuickLinkInStrip(cs: seq<Campaign>, i: nat)
    requires i < |cs| && cs[i].isActive
    ensures Contains(QuickLinksHtml(cs), QuickLink(cs[i]))
  {
    var active := ActiveCampaigns(cs);
    var k := Seqs.FilterIndex(cs, IsActive, i);
    JoinMapContains(active, QuickLink, k);
    StripAroundPills(cs);
    ContainsWithin(QuickLinksOpen, JoinMap(active, QuickLink), QuickLinksClose, QuickLink(cs[i]));
  }

  /** Of two active campaigns, the earlier one's pill comes first: the strip is not re-sorted. */
  lemma QuickLinksFollowInputOrder(cs: seq<Campaign>, i: nat, j: nat)
    requires i < j < |cs| && cs[i].isActive && cs[j].isActive
    ensures OccursBefore(QuickLinksHtml(cs), QuickLink(cs[i]), QuickLink(cs[j]))
  {
    var active := ActiveCampaigns(cs);
    var k, l := Seqs.FilterOrder(cs, IsActive, i, j);
    JoinMapOccursBefore(active, QuickLink, k, l);
    StripAroundPills(cs);
    OccursBeforeWithin(QuickLinksOpen, JoinMap(active, QuickLink), QuickLinksClose, QuickLink(cs[i]), QuickLink(cs[j]));
  }

  /** Every campaign, active or not, has its card in the document. */
  lemma CardInDocument(cs: seq<Campaign>, settings: SiteSettings, year: nat, i: nat)
    requires i < |cs|
    ensures Contains(GenerateStandaloneHtml(cs, settings, year), Card(cs[i]))
  {
    JoinMapContains(cs, Card, i);
    var pre, post := DocumentAroundCards(cs, settings, year);
    ContainsWithin(pre, CardsHtml(cs), post, Card(cs[i]));
  }

  /** Cards appear in input order, active and inactive interleaved as given. */
  lemma CardsFollowInputOrder(cs: seq<Campaign>, settings: SiteSettings, year: nat, i: nat, j: nat)
    requires i < j < |cs|
    ensures OccursBefore(GenerateStandaloneHtml(cs, settings, year), Card(cs[i]), Card(cs[j]))
  {
    JoinMapOccursBefore(cs, Card, i, j);
    var pre, post := DocumentAroundCards(cs, settings, year);
    OccursBeforeWithin(pre, CardsHtml(cs), post, Card(cs[i]), Card(cs[j]));
  }

  /**
   * Every pill targets a card of the same document: an active campaign's pill links to
   * `#campaign-<id>`, and the document holds the card whose id attribute is `campaign-<id>`.
   */
  lemma QuickLinkTargetsCard(cs: seq<Campaign>, settings: SiteSettings, year: nat, i: nat)
    requires i < |cs| && cs[i].isActive
    ensures Contains(GenerateStandaloneHtml(cs, settings, year), Href("#" + CardAnchor(cs[i].id)))
    ensures Contains(GenerateStandaloneHtml(cs, settings, year), IdAttr(CardAnchor(cs[i].id)))
  {
    var c := cs[i];
    QuickLinkInStrip(cs, i);
    ConcatContains(QuickLinkParts(c), 1);
    ContainsTrans(QuickLinksHtml(cs), QuickLink(c), Href("#" + CardAnchor(c.id)));
    var pre, post := DocumentAroundStrip(cs, settings, year);
    ContainsWithin(pre, QuickLinksHtml(cs), post, Href("#" + CardAnchor(c.id)));
    JoinMapContains(cs, Card, i);
    CardCommonContents(c);
    ContainsTrans(CardsHtml(cs), Card(c), IdAttr(CardAnchor(c.id)));
    var pre2, post2 := DocumentAroundCards(cs, settings, year);
    ContainsWithin(pre2, CardsHtml(cs), post2, IdAttr(CardAnchor(c.id)));
  }

  /** Both branches: the card carries its anchor id, its title heading and its description verbatim. */
  lemma CardCommonContents(c: Campaign)
    ensures Contains(Card(c), IdAttr(CardAnchor(c.id)))
    ensures Contains(Card(c), CardHeading(c.title))
    ensures Contains(Card(c), DescriptionParagraph(c.description))
  {
    ConcatContains(CardParts(c), 1);
    ConcatContains(CardParts(c), 13);
    ConcatContains(CardParts(c), 15);
  }

  /**
   * An active card shows the discount badge in the accent colour, the collaboration marker,
   * and a button linking to `link`, filled with `accentColor`, labelled `buttonText`.
   */
  lemma ActiveCardContents(c: Campaign)
    requires c.isActive
    ensures Contains(Card(c), DiscountBadge(c))
    ensures Contains(Card(c), CollabMarker)
    ensures Contains(Card(c), Href(c.link))
    ensures Contains(Card(c), "background-color: " + c.accentColor)
    ensures Contains(Card(c), ButtonLabel(c.buttonText))
  {
    var badgeParts := [BadgeOpen, DiscountBadge(c), CollabOpen, CollabMarker, CollabClose];
    var ctaParts := [CtaStart, Href(c.link), CtaClassAttr, "background-color: " + c.accentColor, CtaShadow,
                     c.accentColor + "66\">", CtaLabelOpen, ButtonLabel(c.buttonText), CtaClose];
    ConcatContains(CardParts(c), 11);
    ConcatContains(CardParts(c), 17);
    ConcatContains(badgeParts, 1);
    ConcatContains(badgeParts, 3);
    ContainsTrans(Card(c), ActiveBadges(c), DiscountBadge(c));
    ContainsTrans(Card(c), ActiveBadges(c), CollabMarker);
    ConcatContains(ctaParts, 1);
    ConcatContains(ctaParts, 3);
    ConcatContains(ctaParts, 7);
    ContainsTrans(Card(c), CallToAction(c), Href(c.link));
    ContainsTrans(Card(c), CallToAction(c), "background-color: " + c.accentColor);
    ContainsTrans(Card(c), CallToAction(c), ButtonLabel(c.buttonText));
  }

  /**
   * An inactive card shows the "YAKINDA" overlay and the disabled "Şu an indirim yok" block,
   * and never uses `link` or `buttonText`: changing them leaves the card unchanged.
   */
  lemma InactiveCardContents(c: Campaign, link: string, buttonText: string)
    requires !c.isActive
    ensures Contains(Card(c), ComingSoonLabel)
    ensures Contains(Card(c), NoOfferLabel)
    ensures Card(c.(link := link, buttonText := buttonText)) == Card(c)
  {
    ConcatContains(CardParts(c), 11);
    ContainsInside(OverlayOpen, ComingSoonLabel, OverlayClose);
    ContainsTrans(Card(c), ComingSoonOverlay(), ComingSoonLabel);
    ConcatContains(CardParts(c), 17);
    ContainsInside(NoOfferOpen, NoOfferLabel, NoOfferClose);
    ContainsTrans(Card(c), NoOfferPlaceholder(), NoOfferLabel);
  }

  /** The document starts with the doctype and ends with `</html>`. */
  lemma DocumentShell(cs: seq<Campaign>, settings: SiteSettings, year: nat)
    ensures IsPrefix(Doctype, GenerateStandaloneHtml(cs, settings, year))
    ensures IsSuffix(HtmlClose, GenerateStandaloneHtml(cs, settings, year))
  {
    var parts := PageParts(settings, year, QuickLinksHtml(cs), CardsHtml(cs));
    ConcatEnds(parts);
    assert parts[0] == Doctype && parts[|parts| - 1] == HtmlClose;
  }

  /** The page title is the document's `<title>`. */
  lemma DocumentShowsTitle(cs: seq<Campaign>, settings: SiteSettings, year: nat)
    ensures Contains(GenerateStandaloneHtml(cs, settings, year), TitleElement(settings.pageTitle))
  {
    ConcatContains(PageParts(settings, year, QuickLinksHtml(cs), CardsHtml(cs)), 2);
  }

  /** The page title is the header's heading. */
  lemma DocumentShowsHeading(cs: seq<Campaign>, settings: SiteSettings, year: nat)
    ensures Contains(GenerateStandaloneHtml(cs, settings, year), Heading(settings.pageTitle))
  {
    ConcatContains(PageParts(settings, year, QuickLinksHtml(cs), CardsHtml(cs)), 4);
  }

  /** The description is the header's paragraph, verbatim. */
  lemma DocumentShowsDescription(cs: seq<Campaign>, settings: SiteSettings, year: nat)
    ensures Contains(GenerateStandaloneHtml(cs, settings, year), Subheading(settings.description))
  {
    ConcatContains(PageParts(settings, year, QuickLinksHtml(cs), CardsHtml(cs)), 6);
  }

  /** The footer line: the year, then the page title. */
  lemma DocumentShowsCopyright(cs: seq<Campaign>, settings: SiteSettings, year: nat)
    ensures Contains(GenerateStandaloneHtml(cs, settings, year), Copyright(year, settings.pageTitle))
  {
    ConcatContains(PageParts(settings, year, QuickLinksHtml(cs), CardsHtml(cs)), 12);
  }

  /** Only the page title and description of the settings reach the document. */
  lemma DocumentIgnoresOtherSettings(cs: seq<Campaign>, settings: SiteSettings, year: nat, headerImageUrl: string, primaryColor: string)
    ensures GenerateStandaloneHtml(cs, settings.(headerImageUrl := headerImageUrl, primaryColor := primaryColor), year)
         == GenerateStandaloneHtml(cs, settings, year)
  {
  }
}
