/**
 * The editor: the campaign list, the form with its auto-fill rules, the settings, and the
 * publish button. The `prev => ...` updaters are functions; the handlers are methods of
 * `Editor`, whose fields are the component's state.
 */
module App {
  import opened Wrappers
  import opened Types
  import opened Strings
  import Seqs
  import Decimal
  import UriComponent
  import WordPressService

  // ---------------------------------------------------------------------------
  // The form and the defaults.
  // ---------------------------------------------------------------------------

  /** A campaign without its id: what the form edits. */
  datatype CampaignForm = CampaignForm(
    title: string,
    discountType: string,
    description: string,
    link: string,
    imageUrl: string,
    buttonText: string,
    accentColor: string,
    isActive: bool)

  /** The form after a save or a cancel. */
  const EmptyForm: CampaignForm := CampaignForm("", "", "", "", "", "Fırsatı Yakala", "#FF6000", true)

  const DefaultSettings: SiteSettings := SiteSettings(
    "Özel İndirim Rehberim",
    "En sevilen markalarda bugüne özel Hepsiburada fırsatlarını senin için listeledim.",
    "", "#FF6000")

  const DefaultWPSettings: WPSettings := WPSettings("", "", "", "")

  /** `{ ...formData, id }` */
  function WithId(form: CampaignForm, id: string): (c: Campaign)
    ensures c.id == id && FormOf(c) == form
  {
    Campaign(id, form.title, form.discountType, form.description, form.link, form.imageUrl,
             form.buttonText, form.accentColor, form.isActive)
  }

  /** The form loaded by `handleEdit`: every field but the id (`description || ''` is the description itself). */
  function FormOf(c: Campaign): CampaignForm
  {
    CampaignForm(c.title, c.discountType, c.description, c.link, c.imageUrl, c.buttonText, c.accentColor, c.isActive)
  }

  /** Loading a campaign into the form and putting its id back gives the campaign again. */
  lemma WithIdFormOf(c: Campaign)
    ensures WithId(FormOf(c), c.id) == c
  {
  }

  // ---------------------------------------------------------------------------
  // The campaign list.
  // ---------------------------------------------------------------------------

  /** The ids of the list, with their multiplicities: the code does not keep them unique. */
  function Ids(cs: seq<Campaign>): (ids: multiset<string>)
    ensures |ids| == |cs|
  {
    if cs == [] then multiset{} else multiset{cs[0].id} + Ids(cs[1..])
  }

  /** No id occurs twice. */
  predicate UniqueIds(cs: seq<Campaign>) {
    forall i, j :: 0 <= i < j < |cs| ==> cs[i].id != cs[j].id
  }

  /** `prev.map(c => c.id === editingId ? { ...formData, id: editingId } : c)` */
  function ReplaceById(cs: seq<Campaign>, id: string, form: CampaignForm): (r: seq<Campaign>)
    ensures |r| == |cs|
    ensures forall i :: 0 <= i < |cs| ==> r[i] == if cs[i].id == id then WithId(form, id) else cs[i]
  {
    if cs == [] then []
    else [if cs[0].id == id then WithId(form, id) else cs[0]] + ReplaceById(cs[1..], id, form)
  }

  /** `prev.map(c => c.id === id ? { ...c, isActive: !c.isActive } : c)` */
  function ToggleById(cs: seq<Campaign>, id: string): (r: seq<Campaign>)
    ensures |r| == |cs|
    ensures forall i :: 0 <= i < |cs| ==> r[i] == if cs[i].id == id then cs[i].(isActive := !cs[i].isActive) else cs[i]
  {
    if cs == [] then []
    else [if cs[0].id == id then cs[0].(isActive := !cs[0].isActive) else cs[0]] + ToggleById(cs[1..], id)
  }

  /** `prev.filter(c => c.id !== id)` */
  function RemoveById(cs: seq<Campaign>, id: string): (r: seq<Campaign>)
    ensures forall i :: 0 <= i < |r| ==> r[i].id != id && r[i] in cs
    ensures forall i :: 0 <= i < |cs| && cs[i].id != id ==> cs[i] in r
  {
    Seqs.Filter(cs, (c: Campaign) => c.id != id)
  }

  /** Replacing keeps every id where it was, so the id multiset and uniqueness are kept. */
  lemma {:induction false} ReplaceByIdKeepsIds(cs: seq<Campaign>, id: string, form: CampaignForm)
    ensures Ids(ReplaceById(cs, id, form)) == Ids(cs)
    ensures UniqueIds(cs) ==> UniqueIds(ReplaceById(cs, id, form))
  {
    if cs != [] {
      var r := ReplaceById(cs, id, form);
      ReplaceByIdKeepsIds(cs[1..], id, form);
      assert r[1..] == ReplaceById(cs[1..], id, form);
      assert r[0].id == cs[0].id;
    }
    SameIdsKeepUnique(cs, ReplaceById(cs, id, form));
  }

  /** Uniqueness depends on the ids alone. */
  lemma SameIdsKeepUnique(cs: seq<Campaign>, r: seq<Campaign>)
    requires |r| == |cs| && forall i :: 0 <= i < |cs| ==> r[i].id == cs[i].id
    ensures UniqueIds(cs) ==> UniqueIds(r)
  {
  }

  /** Toggling twice restores the list. */
  lemma ToggleTwice(cs: seq<Campaign>, id: string)
    ensures ToggleById(ToggleById(cs, id), id) == cs
  {
    var r := ToggleById(ToggleById(cs, id), id);
    assert forall i :: 0 <= i < |cs| ==> r[i] == cs[i];
  }

  /** Toggling keeps every id where it was. */
  lemma {:induction false} ToggleByIdKeepsIds(cs: seq<Campaign>, id: string)
    ensures Ids(ToggleById(cs, id)) == Ids(cs)
  {
    if cs != [] {
      var r := ToggleById(cs, id);
      ToggleByIdKeepsIds(cs[1..], id);
      assert r[1..] == ToggleById(cs[1..], id);
    }
  }

  /**
   * Deleting removes every campaign with the id and only those, keeping the rest in
   * order: around any position it is the survivors before, that campaign unless it has
   * the id, and the survivors after.
   */
  lemma RemoveByIdAround(cs: seq<Campaign>, id: string, i: nat)
    requires i < |cs|
    ensures RemoveById(cs, id)
         == RemoveById(cs[..i], id) + (if cs[i].id != id then [cs[i]] else []) + RemoveById(cs[i + 1..], id)
  {
    var p := (c: Campaign) => c.id != id;
    assert cs == cs[..i] + ([cs[i]] + cs[i + 1..]);
    Seqs.FilterAppend(cs[..i], [cs[i]] + cs[i + 1..], p);
    Seqs.FilterAppend([cs[i]], cs[i + 1..], p);
    Seqs.FilterSingleton(cs[i], p);
  }

  /** Deleting the head's id drops the head; otherwise the head is kept in front. */
  lemma RemoveByIdHead(cs: seq<Campaign>, id: string)
    requires cs != []
    ensures RemoveById(cs, id) == (if cs[0].id != id then [cs[0]] else []) + RemoveById(cs[1..], id)
  {
    var p := (c: Campaign) => c.id != id;
    assert cs == [cs[0]] + cs[1..];
    Seqs.FilterAppend([cs[0]], cs[1..], p);
    Seqs.FilterSingleton(cs[0], p);
  }

  /** Deleting drops the id's count to zero and changes no other count. */
  lemma {:induction false} RemoveByIdIds(cs: seq<Campaign>, id: string)
    ensures Ids(RemoveById(cs, id)) == Ids(cs)[id := 0]
    ensures |RemoveById(cs, id)| == |cs| - Ids(cs)[id]
  {
    if cs != [] {
      var rest := RemoveById(cs[1..], id);
      RemoveByIdHead(cs, id);
      RemoveByIdIds(cs[1..], id);
      if cs[0].id != id {
        assert ([cs[0]] + rest)[1..] == rest;
      } else {
        assert [] + rest == rest;
      }
    }
  }

  /** Deleting keeps ids unique. */
  lemma RemoveByIdKeepsUnique(cs: seq<Campaign>, id: string)
    requires UniqueIds(cs)
    ensures UniqueIds(RemoveById(cs, id))
  {
    var r := RemoveById(cs, id);
    forall i, j | 0 <= i < j < |r| ensures r[i].id != r[j].id {
      UniqueIdsCount(cs, r[i].id);
      RemoveByIdIds(cs, id);
      if r[i].id == r[j].id {
        CountAtLeastTwo(r, i, j);
      }
    }
  }

  /** In a list with unique ids every id occurs at most once. */
  lemma {:induction false} UniqueIdsCount(cs: seq<Campaign>, id: string)
    requires UniqueIds(cs)
    ensures Ids(cs)[id] <= 1
  {
    if cs != [] {
      UniqueIdsCount(cs[1..], id);
      if cs[0].id == id {
        IdsAbsent(cs[1..], id);
      }
    }
  }

  lemma {:induction false} IdsAbsent(cs: seq<Campaign>, id: string)
    requires forall i :: 0 <= i < |cs| ==> cs[i].id != id
    ensures Ids(cs)[id] == 0
  {
    if cs != [] {
      IdsAbsent(cs[1..], id);
    }
  }

  lemma {:induction false} IdsMember(cs: seq<Campaign>, id: string)
    requires Ids(cs)[id] > 0
    ensures exists i :: 0 <= i < |cs| && cs[i].id == id
  {
    if cs[0].id != id {
      IdsMember(cs[1..], id);
      var i :| 0 <= i < |cs[1..]| && cs[1..][i].id == id;
      assert cs[i + 1].id == id;
    }
  }

  lemma {:induction false} CountAtLeastTwo(cs: seq<Campaign>, i: nat, j: nat)
    requires i < j < |cs| && cs[i].id == cs[j].id
    ensures Ids(cs)[cs[i].id] >= 2
  {
    if i == 0 {
      IdsIndex(cs[1..], j - 1);
    } else {
      CountAtLeastTwo(cs[1..], i - 1, j - 1);
    }
  }

  lemma {:induction false} IdsIndex(cs: seq<Campaign>, i: nat)
    requires i < |cs|
    ensures Ids(cs)[cs[i].id] >= 1
  {
    if i > 0 {
      IdsIndex(cs[1..], i - 1);
    }
  }

  /** Appending one campaign adds its id once; ids stay unique exactly when the new id is fresh. */
  lemma AppendIds(cs: seq<Campaign>, c: Campaign)
    ensures Ids(cs + [c]) == Ids(cs) + multiset{c.id}
    ensures UniqueIds(cs) ==> (UniqueIds(cs + [c]) <==> Ids(cs)[c.id] == 0)
  {
    AppendIdsCount(cs, c);
    if UniqueIds(cs) {
      AppendKeepsUnique(cs, c);
    }
  }

  lemma {:induction false} AppendIdsCount(cs: seq<Campaign>, c: Campaign)
    ensures Ids(cs + [c]) == Ids(cs) + multiset{c.id}
  {
    if cs == [] {
      assert cs + [c] == [c];
    } else {
      assert (cs + [c])[1..] == cs[1..] + [c];
      AppendIdsCount(cs[1..], c);
    }
  }

  lemma AppendKeepsUnique(cs: seq<Campaign>, c: Campaign)
    requires UniqueIds(cs)
    ensures UniqueIds(cs + [c]) <==> Ids(cs)[c.id] == 0
  {
    var r := cs + [c];
    if Ids(cs)[c.id] > 0 {
      IdsMember(cs, c.id);
      var i :| 0 <= i < |cs| && cs[i].id == c.id;
      assert r[i].id == r[|cs|].id;
    } else {
      forall i | 0 <= i < |cs| ensures cs[i].id != c.id {
        IdsIndex(cs, i);
      }
      forall i, j | 0 <= i < j < |r| ensures r[i].id != r[j].id {
        if j < |cs| {
          assert r[i] == cs[i] && r[j] == cs[j];
        } else {
          assert r[i] == cs[i] && r[j] == c;
        }
      }
    }
  }

  /**
   * Loading a campaign into the form and saving it unchanged leaves a list with unique
   * ids as it was.
   */
  lemma EditThenSaveUnchanged(cs: seq<Campaign>, k: nat)
    requires UniqueIds(cs) && k < |cs|
    ensures ReplaceById(cs, cs[k].id, FormOf(cs[k])) == cs
  {
    var r := ReplaceById(cs, cs[k].id, FormOf(cs[k]));
    forall i | 0 <= i < |cs| ensures r[i] == cs[i] {
      if cs[i].id == cs[k].id {
        assert i == k;
      }
    }
  }

  // ---------------------------------------------------------------------------
  // The smart button text.
  // ---------------------------------------------------------------------------

  const DefaultButtonLabel: string := "Hemen İncele"

  /** The labels `getSmartButtonText` can return. */
  const ButtonLabels: seq<string> :=
    ["Ürünleri Gör", "Fırsatı Gör", "Hemen Tıkla", "Ürünleri İncele", "Fırsatları Gör", "Hemen Gör", DefaultButtonLabel]

  /** `getSmartButtonText(title)`: the first keyword group found in the lower-cased title picks the label. */
  function GetSmartButtonText(title: string): (r: string)
    ensures r in ButtonLabels
  {
    var t := ToLower(title);
    if Contains(t, "telefon") || Contains(t, "bilgisayar") || Contains(t, "elektronik") then "Ürünleri Gör"
    else if Contains(t, "giyim") || Contains(t, "moda") || Contains(t, "elbise") then "Fırsatı Gör"
    else if Contains(t, "kitap") then "Hemen Tıkla"
    else if Contains(t, "ev") || Contains(t, "mobilya") then "Ürünleri İncele"
    else if Contains(t, "anne") || Contains(t, "bebek") then "Fırsatları Gör"
    else if Contains(t, "kozmetik") then "Hemen Gör"
    else DefaultButtonLabel
  }

  /** A keyword group and the label it selects. */
  datatype Rule = Rule(keywords: seq<string>, caption: string)

  const ElectronicsRule: Rule := Rule(["telefon", "bilgisayar", "elektronik"], "Ürünleri Gör")
  const FashionRule: Rule := Rule(["giyim", "moda", "elbise"], "Fırsatı Gör")
  const BookRule: Rule := Rule(["kitap"], "Hemen Tıkla")
  const HomeRule: Rule := Rule(["ev", "mobilya"], "Ürünleri İncele")
  const BabyRule: Rule := Rule(["anne", "bebek"], "Fırsatları Gör")
  const CosmeticsRule: Rule := Rule(["kozmetik"], "Hemen Gör")

  /** The keyword groups of `getSmartButtonText`, in the order they are tried. */
  const SmartButtonRules: seq<Rule> := [ElectronicsRule, FashionRule, BookRule, HomeRule, BabyRule, CosmeticsRule]

  predicate Matches(rule: Rule, t: string) {
    exists k :: 0 <= k < |rule.keywords| && Contains(t, rule.keywords[k])
  }

  /** The label of the first rule whose group has a keyword in `t`, else `fallback`. */
  function FirstMatchingLabel(rules: seq<Rule>, t: string, fallback: string): (r: string)
    ensures (forall k :: 0 <= k < |rules| ==> !Matches(rules[k], t)) ==> r == fallback
    ensures forall k :: 0 <= k < |rules| && Matches(rules[k], t) && (forall j :: 0 <= j < k ==> !Matches(rules[j], t))
               ==> r == rules[k].caption
  {
    FirstMatchFrom(rules, 0, t, fallback)
  }

  /** The first-match search from rule `i` on. */
  function FirstMatchFrom(rules: seq<Rule>, i: nat, t: string, fallback: string): (r: string)
    requires i <= |rules|
    ensures (forall k :: i <= k < |rules| ==> !Matches(rules[k], t)) ==> r == fallback
    ensures forall k :: i <= k < |rules| && Matches(rules[k], t) && (forall j :: i <= j < k ==> !Matches(rules[j], t))
               ==> r == rules[k].caption
    decreases |rules| - i
  {
    if i == |rules| then fallback
    else if Matches(rules[i], t) then rules[i].caption
    else FirstMatchFrom(rules, i + 1, t, fallback)
  }

  lemma MatchesOne(a: string, caption: string, t: string)
    ensures Matches(Rule([a], caption), t) <==> Contains(t, a)
  {
    if Contains(t, a) {
      assert Rule([a], caption).keywords[0] == a;
    }
  }

  lemma MatchesTwo(a: string, b: string, caption: string, t: string)
    ensures Matches(Rule([a, b], caption), t) <==> Contains(t, a) || Contains(t, b)
  {
    var ks := [a, b];
    assert ks[0] == a && ks[1] == b;
  }

  lemma MatchesThree(a: string, b: string, c: string, caption: string, t: string)
    ensures Matches(Rule([a, b, c], caption), t) <==> Contains(t, a) || Contains(t, b) || Contains(t, c)
  {
    var ks := [a, b, c];
    assert ks[0] == a && ks[1] == b && ks[2] == c;
  }

  /** The if-chain is the first-match rule table: earlier groups win, and no match gives the default. */
  lemma SmartButtonFollowsRules(title: string)
    ensures GetSmartButtonText(title) == FirstMatchingLabel(SmartButtonRules, ToLower(title), DefaultButtonLabel)
  {
    var t := ToLower(title);
    var rs, d := SmartButtonRules, DefaultButtonLabel;
    assert rs[0] == ElectronicsRule && rs[1] == FashionRule && rs[2] == BookRule;
    assert rs[3] == HomeRule && rs[4] == BabyRule && rs[5] == CosmeticsRule;
    MatchesThree("telefon", "bilgisayar", "elektronik", "Ürünleri Gör", t);
    MatchesThree("giyim", "moda", "elbise", "Fırsatı Gör", t);
    MatchesOne("kitap", "Hemen Tıkla", t);
    MatchesTwo("ev", "mobilya", "Ürünleri İncele", t);
    MatchesTwo("anne", "bebek", "Fırsatları Gör", t);
    MatchesOne("kozmetik", "Hemen Gör", t);
    FirstMatchStep(rs, 5, t, d);
    FirstMatchStep(rs, 4, t, d);
    FirstMatchStep(rs, 3, t, d);
    FirstMatchStep(rs, 2, t, d);
    FirstMatchStep(rs, 1, t, d);
    FirstMatchStep(rs, 0, t, d);
  }

  lemma FirstMatchStep(rules: seq<Rule>, i: nat, t: string, fallback: string)
    requires i < |rules|
    ensures FirstMatchFrom(rules, i, t, fallback)
         == if Matches(rules[i], t) then rules[i].caption else FirstMatchFrom(rules, i + 1, t, fallback)
  {
  }



  /** "KİTAP" lower-cases to "ki̇tap" (a combining dot after the i), so it misses the book group. */
  lemma DottedCapitalIMissesKeyword()
    ensures ToLower("K\U{130}TAP") == "ki\U{307}tap"
    ensures !Contains(ToLower("K\U{130}TAP"), "kitap")
    ensures Contains(ToLower("KITAP"), "kitap")
  {
    LowerDottedTitle();
    LowerPlainTitle();
    var t := "ki\U{307}tap";
    assert t[..5][2] != "kitap"[2];
    assert t[1..][..5][0] != "kitap"[0];
    ShortMisses(t[1..][1..], "kitap");
    assert !Contains(t[1..], "kitap");
  }

  lemma LowerDottedTitle()
    ensures ToLower("K\U{130}TAP") == "ki\U{307}tap"
  {
    var s := "K\U{130}TAP";
    assert ToLower(s[4..]) == "p";
    assert ToLower(s[3..]) == "a" + ToLower(s[4..]);
    assert ToLower(s[2..]) == "t" + ToLower(s[3..]);
    assert ToLower(s[1..]) == "i\U{307}" + ToLower(s[2..]);
  }

  lemma LowerPlainTitle()
    ensures ToLower("KITAP") == "kitap"
    ensures Contains("kitap", "kitap")
  {
    var s := "KITAP";
    assert ToLower(s[4..]) == "p";
    assert ToLower(s[3..]) == "a" + ToLower(s[4..]);
    assert ToLower(s[2..]) == "t" + ToLower(s[3..]);
    assert ToLower(s[1..]) == "i" + ToLower(s[2..]);
    assert IsPrefix("kitap", "kitap");
  }

  /** A text shorter than `sub` does not contain it. */
  lemma {:induction false} ShortMisses(s: string, sub: string)
    requires |s| < |sub|
    ensures !Contains(s, sub)
    decreases |s|
  {
    if |s| > 0 {
      ShortMisses(s[1..], sub);
    }
  }

  // ---------------------------------------------------------------------------
  // The form's auto-fill.
  // ---------------------------------------------------------------------------

  /** The `?lock=` suffix: `Math.floor(Math.random() * 1000)`, passed in. */
  type Lock = n: nat | n < 1000

  /** Button texts that a title edit may overwrite: empty, the form default, and two generic labels. */
  predicate IsAutoButtonText(b: string) {
    b == "" || b == "Fırsatı Yakala" || b == DefaultButtonLabel || b == "Fırsatı İncele"
  }

  const StockImageHost: string := "loremflickr.com"
  const StockImagePrefix: string := "https://loremflickr.com/800/600/"

  /** Image URLs that a title edit may overwrite: none yet, or an earlier stock image. */
  predicate IsAutoImageUrl(u: string) {
    u == "" || Contains(u, StockImageHost)
  }

  /** `val.split(' ')[0] || 'shopping'` */
  function ImageKeyword(title: string): (k: string)
    ensures k != "" && forall i :: 0 <= i < |k| ==> k[i] != ' '
    ensures k == "shopping" || (IsPrefix(k, title) && (k == title || title[|k|] == ' '))
    ensures k == "shopping" <==> FirstWord(title) == "" || FirstWord(title) == "shopping"
  {
    var w := FirstWord(title);
    if w == "" then "shopping" else w
  }

  /** The stock image for a keyword; the keyword is percent-encoded into one path segment. */
  function StockImageUrl(keyword: string, lock: Lock): (u: string)
    ensures IsPrefix(StockImagePrefix, u) && IsAutoImageUrl(u)
    ensures IsSuffix("?lock=" + Decimal.NatToString(lock), u)
    ensures |u| == |StockImagePrefix| + |UriComponent.EncodeUriComponent(keyword)| + |"?lock=" + Decimal.NatToString(lock)|
    ensures u[|StockImagePrefix|..|u| - |"?lock=" + Decimal.NatToString(lock)|] == UriComponent.EncodeUriComponent(keyword)
  {
    var encoded := UriComponent.EncodeUriComponent(keyword);
    var suffix := "?lock=" + Decimal.NatToString(lock);
    var rest := encoded + suffix;
    StockPrefixNamesHost(rest);
    var u := StockImagePrefix + rest;
    assert u == StockImagePrefix + encoded + suffix;
    assert u[|StockImagePrefix|..|u| - |suffix|] == encoded;
    assert u[|u| - |suffix|..] == suffix;
    u
  }

  /**
   * A title whose first word needs no escaping reaches the image URL verbatim, so the
   * picture follows the title.
   */
  lemma PlainKeywordInImageUrl(title: string, lock: Lock)
    requires forall i :: 0 <= i < |FirstWord(title)| ==> UriComponent.IsUnreserved(FirstWord(title)[i])
    ensures StockImageUrl(ImageKeyword(title), lock)
         == StockImagePrefix + ImageKeyword(title) + "?lock=" + Decimal.NatToString(lock)
  {
    var k := ImageKeyword(title);
    if k == "shopping" {
      assert forall i :: 0 <= i < |k| ==> UriComponent.IsUnreserved(k[i]);
    }
    UriComponent.EncodeUnreservedIdentity(k);
  }

  lemma StockPrefixNamesHost(rest: string)
    ensures IsPrefix(StockImagePrefix, StockImagePrefix + rest)
    ensures Contains(StockImagePrefix + rest, StockImageHost)
  {
    assert (StockImagePrefix + rest)[..|StockImagePrefix|] == StockImagePrefix;
    assert StockImagePrefix == "https://" + StockImageHost + "/800/600/";
    ContainsInside("https://", StockImageHost, "/800/600/" + rest);
    assert StockImagePrefix + rest == "https://" + StockImageHost + ("/800/600/" + rest);
  }

  /** The title updater of `handleInputChange`: the new title, plus whichever auto-fills apply. */
  function ApplyTitleChange(prev: CampaignForm, title: string, lock: Lock): CampaignForm
  {
    prev.(title := title,
          buttonText := if IsAutoButtonText(prev.buttonText) then GetSmartButtonText(title) else prev.buttonText,
          imageUrl := if IsAutoImageUrl(prev.imageUrl) then StockImageUrl(ImageKeyword(title), lock) else prev.imageUrl)
  }

  /**
   * A title edit sets the title, rewrites the button text exactly when the old one was
   * automatic and the image exactly when the old one was automatic, and leaves every
   * other field alone.
   */
  lemma TitleChangeEffect(prev: CampaignForm, title: string, lock: Lock)
    ensures var r := ApplyTitleChange(prev, title, lock);
      && r.title == title
      && (IsAutoButtonText(prev.buttonText) ==> r.buttonText == GetSmartButtonText(title))
      && (!IsAutoButtonText(prev.buttonText) ==> r.buttonText == prev.buttonText)
      && (IsAutoImageUrl(prev.imageUrl) ==> r.imageUrl == StockImageUrl(ImageKeyword(title), lock))
      && (!IsAutoImageUrl(prev.imageUrl) ==> r.imageUrl == prev.imageUrl)
      && r.(title := prev.title, buttonText := prev.buttonText, imageUrl := prev.imageUrl) == prev
  {
  }

  /** An automatic image stays automatic, so every later title edit refreshes it again. */
  lemma AutoImageStaysAuto(prev: CampaignForm, title: string, lock: Lock)
    requires IsAutoImageUrl(prev.imageUrl)
    ensures IsAutoImageUrl(ApplyTitleChange(prev, title, lock).imageUrl)
    ensures IsPrefix(StockImagePrefix, ApplyTitleChange(prev, title, lock).imageUrl)
  {
  }

  /**
   * Once a title edit picks a keyword label (any label but the generic default), later
   * title edits no longer touch the button text.
   */
  lemma KeywordLabelFreezes(prev: CampaignForm, t1: string, l1: Lock, t2: string, l2: Lock)
    requires IsAutoButtonText(prev.buttonText)
    requires GetSmartButtonText(t1) != DefaultButtonLabel
    ensures ApplyTitleChange(ApplyTitleChange(prev, t1, l1), t2, l2).buttonText == GetSmartButtonText(t1)
  {
    var b := GetSmartButtonText(t1);
    assert b in ButtonLabels;
    assert !IsAutoButtonText(b);
  }

  /** One change of a form field, as `handleInputChange`, `setDiscountPreset`, the upload and the image buttons make it. */
  datatype FormInput =
    | TitleInput(title: string, lock: Lock)
    | DiscountTypeInput(discountType: string)
    | DescriptionInput(description: string)
    | LinkInput(link: string)
    | ImageUrlInput(imageUrl: string)
    | ButtonTextInput(buttonText: string)
    | AccentColorInput(accentColor: string)
    | IsActiveInput(isActive: bool)

  /** `{ ...prev, [name]: val }`, with the title's auto-fill. */
  function ApplyInput(prev: CampaignForm, input: FormInput): CampaignForm
  {
    match input
    case TitleInput(title, lock) => ApplyTitleChange(prev, title, lock)
    case DiscountTypeInput(v) => prev.(discountType := v)
    case DescriptionInput(v) => prev.(description := v)
    case LinkInput(v) => prev.(link := v)
    case ImageUrlInput(v) => prev.(imageUrl := v)
    case ButtonTextInput(v) => prev.(buttonText := v)
    case AccentColorInput(v) => prev.(accentColor := v)
    case IsActiveInput(v) => prev.(isActive := v)
  }

  /** A sequence of form changes, applied in order. */
  function ApplyInputs(prev: CampaignForm, inputs: seq<FormInput>): CampaignForm
    decreases |inputs|
  {
    if inputs == [] then prev else ApplyInputs(ApplyInput(prev, inputs[0]), inputs[1..])
  }

  /** A typed-in button text that is not automatic survives any number of other edits, titles included. */
  lemma {:induction false} ManualButtonTextSurvives(prev: CampaignForm, inputs: seq<FormInput>)
    requires !IsAutoButtonText(prev.buttonText)
    requires forall i :: 0 <= i < |inputs| ==> !inputs[i].ButtonTextInput?
    ensures ApplyInputs(prev, inputs).buttonText == prev.buttonText
    decreases |inputs|
  {
    if inputs != [] {
      ManualButtonTextSurvives(ApplyInput(prev, inputs[0]), inputs[1..]);
    }
  }

  /** Likewise a chosen image that is not a stock image survives edits that do not set the image. */
  lemma {:induction false} ManualImageSurvives(prev: CampaignForm, inputs: seq<FormInput>)
    requires !IsAutoImageUrl(prev.imageUrl)
    requires forall i :: 0 <= i < |inputs| ==> !inputs[i].ImageUrlInput?
    ensures ApplyInputs(prev, inputs).imageUrl == prev.imageUrl
    decreases |inputs|
  {
    if inputs != [] {
      ManualImageSurvives(ApplyInput(prev, inputs[0]), inputs[1..]);
    }
  }

  /** Only a title edit triggers auto-fill: every other change sets its own field and nothing else. */
  lemma OtherInputsTouchOneField(prev: CampaignForm, input: FormInput)
    requires !input.TitleInput?
    ensures var r := ApplyInput(prev, input);
      && (r.title == prev.title && r.buttonText == (if input.ButtonTextInput? then input.buttonText else prev.buttonText))
      && r.imageUrl == (if input.ImageUrlInput? then input.imageUrl else prev.imageUrl)
      && r.discountType == (if input.DiscountTypeInput? then input.discountType else prev.discountType)
      && r.isActive == (if input.IsActiveInput? then input.isActive else prev.isActive)
      && r.description == (if input.DescriptionInput? then input.description else prev.description)
      && r.link == (if input.LinkInput? then input.link else prev.link)
      && r.accentColor == (if input.AccentColorInput? then input.accentColor else prev.accentColor)
  {
  }

  // ---------------------------------------------------------------------------
  // Settings: the page header fields, the WordPress connection, and loading saved ones.
  // ---------------------------------------------------------------------------

  /** The page fields the settings panel edits (`handleSettingsChange`). */
  datatype SettingsInput = PageTitleInput(pageTitle: string) | PageDescriptionInput(description: string)

  function ApplySettingsInput(prev: SiteSettings, input: SettingsInput): SiteSettings
  {
    match input
    case PageTitleInput(v) => prev.(pageTitle := v)
    case PageDescriptionInput(v) => prev.(description := v)
  }

  /** The connection fields (`handleWPSettingsChange`). */
  datatype WPInput = SiteUrlInput(siteUrl: string) | PageIdInput(pageId: string) | UsernameInput(username: string) | AppPasswordInput(appPassword: string)

  function ApplyWPInput(prev: WPSettings, input: WPInput): WPSettings
  {
    match input
    case SiteUrlInput(v) => prev.(siteUrl := v)
    case PageIdInput(v) => prev.(pageId := v)
    case UsernameInput(v) => prev.(username := v)
    case AppPasswordInput(v) => prev.(appPassword := v)
  }

  /** Saved site settings: each field may be missing. */
  datatype SavedSettings = SavedSettings(
    pageTitle: Option<string>, description: Option<string>, headerImageUrl: Option<string>, primaryColor: Option<string>)

  /** Saved connection settings: each field may be missing. */
  datatype SavedWPSettings = SavedWPSettings(
    siteUrl: Option<string>, pageId: Option<string>, username: Option<string>, appPassword: Option<string>)

  /** What a load finds: each of the three stored values may be missing. */
  datatype SavedData = SavedData(
    campaigns: Option<seq<Campaign>>, settings: Option<SavedSettings>, wpSettings: Option<SavedWPSettings>)

  /** `{ ...defaults, ...saved }` */
  function MergeSettings(defaults: SiteSettings, saved: SavedSettings): SiteSettings
  {
    SiteSettings(
      saved.pageTitle.GetOr(defaults.pageTitle),
      saved.description.GetOr(defaults.description),
      saved.headerImageUrl.GetOr(defaults.headerImageUrl),
      saved.primaryColor.GetOr(defaults.primaryColor))
  }

  /** `{ ...defaults, ...saved }` */
  function MergeWPSettings(defaults: WPSettings, saved: SavedWPSettings): WPSettings
  {
    WPSettings(
      saved.siteUrl.GetOr(defaults.siteUrl),
      saved.pageId.GetOr(defaults.pageId),
      saved.username.GetOr(defaults.username),
      saved.appPassword.GetOr(defaults.appPassword))
  }

  /** The stored form of complete settings: every field present. */
  function StoredSettings(s: SiteSettings): SavedSettings
  {
    SavedSettings(Some(s.pageTitle), Some(s.description), Some(s.headerImageUrl), Some(s.primaryColor))
  }

  function StoredWPSettings(s: WPSettings): SavedWPSettings
  {
    SavedWPSettings(Some(s.siteUrl), Some(s.pageId), Some(s.username), Some(s.appPassword))
  }

  /** A saved field wins over the default; a missing one keeps it. */
  lemma MergeSettingsFields(defaults: SiteSettings, saved: SavedSettings)
    ensures var r := MergeSettings(defaults, saved);
      && r.pageTitle == (if saved.pageTitle.Some? then saved.pageTitle.value else defaults.pageTitle)
      && r.description == (if saved.description.Some? then saved.description.value else defaults.description)
      && r.headerImageUrl == (if saved.headerImageUrl.Some? then saved.headerImageUrl.value else defaults.headerImageUrl)
      && r.primaryColor == (if saved.primaryColor.Some? then saved.primaryColor.value else defaults.primaryColor)
  {
  }

  /** Settings stored in full load back unchanged whatever the defaults, and merging twice changes nothing. */
  lemma SettingsRoundTrip(defaults: SiteSettings, s: SiteSettings, saved: SavedSettings)
    ensures MergeSettings(defaults, StoredSettings(s)) == s
    ensures MergeSettings(MergeSettings(defaults, saved), saved) == MergeSettings(defaults, saved)
    ensures MergeSettings(defaults, SavedSettings(None, None, None, None)) == defaults
  {
  }

  lemma MergeWPSettingsFields(defaults: WPSettings, saved: SavedWPSettings)
    ensures var r := MergeWPSettings(defaults, saved);
      && r.siteUrl == (if saved.siteUrl.Some? then saved.siteUrl.value else defaults.siteUrl)
      && r.pageId == (if saved.pageId.Some? then saved.pageId.value else defaults.pageId)
      && r.username == (if saved.username.Some? then saved.username.value else defaults.username)
      && r.appPassword == (if saved.appPassword.Some? then saved.appPassword.value else defaults.appPassword)
  {
  }

  lemma WPSettingsRoundTrip(defaults: WPSettings, s: WPSettings, saved: SavedWPSettings)
    ensures MergeWPSettings(defaults, StoredWPSettings(s)) == s
    ensures MergeWPSettings(MergeWPSettings(defaults, saved), saved) == MergeWPSettings(defaults, saved)
    ensures MergeWPSettings(defaults, SavedWPSettings(None, None, None, None)) == defaults
  {
  }

  /** Only a site URL and a page id are checked before publishing. */
  predicate CanPublish(wp: WPSettings) {
    wp.siteUrl != "" && wp.pageId != ""
  }

  /** The guard is weaker than the publisher's own check: it can pass with credentials missing. */
  lemma GuardWeakerThanPublisher(wp: WPSettings)
    ensures WordPressService.HasAllSettings(wp) ==> CanPublish(wp)
    ensures CanPublish(wp) && (wp.username == "" || wp.appPassword == "") ==> !WordPressService.HasAllSettings(wp)
  {
  }

  /** `if (editingId)`: an empty id counts as not editing. */
  predicate IsEditingId(editingId: Option<string>) {
    editingId.Some? && editingId.value != ""
  }

  /**
   * The list after `handleSave`: while editing, the form replaces every campaign with the
   * edited id; otherwise it is appended under the new id.
   */
  function SaveList(cs: seq<Campaign>, editingId: Option<string>, form: CampaignForm, newId: string): (r: seq<Campaign>)
    ensures IsEditingId(editingId) ==> |r| == |cs| && forall i :: 0 <= i < |cs| ==>
              r[i] == if cs[i].id == editingId.value then WithId(form, editingId.value) else cs[i]
    ensures !IsEditingId(editingId) ==> |r| == |cs| + 1 && r[..|cs|] == cs && r[|cs|] == WithId(form, newId)
  {
    if IsEditingId(editingId) then ReplaceById(cs, editingId.value, form) else cs + [WithId(form, newId)]
  }

  /** Saving while editing keeps the ids; appending adds the new id once, keeping them unique when it is fresh. */
  lemma SaveListIds(cs: seq<Campaign>, editingId: Option<string>, form: CampaignForm, newId: string)
    ensures IsEditingId(editingId) ==> Ids(SaveList(cs, editingId, form, newId)) == Ids(cs)
    ensures !IsEditingId(editingId) ==> Ids(SaveList(cs, editingId, form, newId)) == Ids(cs) + multiset{newId}
    ensures UniqueIds(cs) && (IsEditingId(editingId) || newId !in Ids(cs)) ==> UniqueIds(SaveList(cs, editingId, form, newId))
  {
    if IsEditingId(editingId) {
      ReplaceByIdKeepsIds(cs, editingId.value, form);
    } else {
      AppendIds(cs, WithId(form, newId));
    }
  }

  /** A campaign with an empty id cannot be edited in place: saving appends a copy instead. */
  lemma EmptyIdSaveAppends(cs: seq<Campaign>, form: CampaignForm, newId: string)
    ensures SaveList(cs, Some(""), form, newId) == cs + [WithId(form, newId)]
  {
  }

  // ---------------------------------------------------------------------------
  // The editor state.
  // ---------------------------------------------------------------------------

  datatype PublishStatus = Idle | Succeeded | Failed

  class Editor {
    var campaigns: seq<Campaign>
    var settings: SiteSettings
    var wpSettings: WPSettings
    var editingId: Option<string>
    var form: CampaignForm
    var wpStatus: PublishStatus
    var wpMessage: string

    /** The initial state, before anything is loaded. */
    constructor ()
      ensures campaigns == DefaultCampaigns && settings == DefaultSettings && wpSettings == DefaultWPSettings
      ensures editingId == None && form == EmptyForm && wpStatus == Idle && wpMessage == ""
    {
      campaigns := DefaultCampaigns;
      settings := DefaultSettings;
      wpSettings := DefaultWPSettings;
      editingId := None;
      form := EmptyForm;
      wpStatus := Idle;
      wpMessage := "";
    }

    /**
     * `handleSave`: while editing, the form replaces every campaign with the edited id and
     * editing ends; otherwise the form is appended under `newId`. The form then resets.
     */
    method Save(newId: string)
      modifies this
      ensures campaigns == SaveList(old(campaigns), old(editingId), old(form), newId)
      ensures editingId == if IsEditingId(old(editingId)) then None else old(editingId)
      ensures IsEditingId(old(editingId)) ==> Ids(campaigns) == Ids(old(campaigns))
      ensures !IsEditingId(old(editingId)) ==> Ids(campaigns) == Ids(old(campaigns)) + multiset{newId}
      ensures old(UniqueIds(campaigns)) && (IsEditingId(old(editingId)) || newId !in Ids(old(campaigns))) ==> UniqueIds(campaigns)
      ensures form == EmptyForm
      ensures settings == old(settings) && wpSettings == old(wpSettings)
      ensures wpStatus == old(wpStatus) && wpMessage == old(wpMessage)
    {
      SaveListIds(campaigns, editingId, form, newId);
      campaigns := SaveList(campaigns, editingId, form, newId);
      if IsEditingId(editingId) {
        editingId := None;
      }
      form := EmptyForm;
    }

    /** `toggleCampaignStatus` */
    method ToggleStatus(id: string)
      modifies this
      ensures campaigns == ToggleById(old(campaigns), id)
      ensures Ids(campaigns) == Ids(old(campaigns))
      ensures editingId == old(editingId) && form == old(form)
      ensures settings == old(settings) && wpSettings == old(wpSettings)
      ensures wpStatus == old(wpStatus) && wpMessage == old(wpMessage)
    {
      ToggleByIdKeepsIds(campaigns, id);
      campaigns := ToggleById(campaigns, id);
    }

    /** `handleDelete`, once confirmed: the id's campaigns go, and editing it ends. */
    method Delete(id: string)
      modifies this
      ensures campaigns == RemoveById(old(campaigns), id)
      ensures Ids(campaigns) == Ids(old(campaigns))[id := 0]
      ensures old(UniqueIds(campaigns)) ==> UniqueIds(campaigns)
      ensures editingId == if old(editingId) == Some(id) then None else old(editingId)
      ensures form == old(form)
      ensures settings == old(settings) && wpSettings == old(wpSettings)
      ensures wpStatus == old(wpStatus) && wpMessage == old(wpMessage)
    {
      RemoveByIdIds(campaigns, id);
      if UniqueIds(campaigns) {
        RemoveByIdKeepsUnique(campaigns, id);
      }
      campaigns := RemoveById(campaigns, id);
      if editingId == Some(id) {
        editingId := None;
      }
    }

    /** `handleEdit`: the campaign's fields go into the form and its id is remembered. */
    method Edit(c: Campaign)
      modifies this
      ensures editingId == Some(c.id) && form == FormOf(c) && WithId(form, c.id) == c
      ensures campaigns == old(campaigns)
      ensures settings == old(settings) && wpSettings == old(wpSettings)
      ensures wpStatus == old(wpStatus) && wpMessage == old(wpMessage)
    {
      editingId := Some(c.id);
      form := FormOf(c);
    }

    /** The cancel button shown while editing. */
    method CancelEdit()
      modifies this
      ensures editingId == None && form == EmptyForm
      ensures campaigns == old(campaigns)
      ensures settings == old(settings) && wpSettings == old(wpSettings)
      ensures wpStatus == old(wpStatus) && wpMessage == old(wpMessage)
    {
      editingId := None;
      form := EmptyForm;
    }

    /** `handleInputChange` and the other form setters. */
    method ChangeInput(input: FormInput)
      modifies this
      ensures form == ApplyInput(old(form), input)
      ensures input.TitleInput? && IsAutoButtonText(old(form.buttonText)) ==> form.buttonText in ButtonLabels
      ensures input.TitleInput? && IsAutoImageUrl(old(form.imageUrl)) ==> IsAutoImageUrl(form.imageUrl)
      ensures campaigns == old(campaigns) && editingId == old(editingId)
      ensures settings == old(settings) && wpSettings == old(wpSettings)
      ensures wpStatus == old(wpStatus) && wpMessage == old(wpMessage)
    {
      form := ApplyInput(form, input);
    }

    /** `setDiscountPreset` */
    method SetDiscountPreset(value: string)
      modifies this
      ensures form == old(form).(discountType := value)
      ensures campaigns == old(campaigns) && editingId == old(editingId)
      ensures settings == old(settings) && wpSettings == old(wpSettings)
      ensures wpStatus == old(wpStatus) && wpMessage == old(wpMessage)
    {
      form := ApplyInput(form, DiscountTypeInput(value));
    }

    /** `handleSettingsChange` */
    method ChangeSettings(input: SettingsInput)
      modifies this
      ensures settings == ApplySettingsInput(old(settings), input)
      ensures campaigns == old(campaigns) && editingId == old(editingId) && form == old(form)
      ensures wpSettings == old(wpSettings) && wpStatus == old(wpStatus) && wpMessage == old(wpMessage)
    {
      settings := ApplySettingsInput(settings, input);
    }

    /** `handleWPSettingsChange` */
    method ChangeWPSettings(input: WPInput)
      modifies this
      ensures wpSettings == ApplyWPInput(old(wpSettings), input)
      ensures campaigns == old(campaigns) && editingId == old(editingId) && form == old(form)
      ensures settings == old(settings) && wpStatus == old(wpStatus) && wpMessage == old(wpMessage)
    {
      wpSettings := ApplyWPInput(wpSettings, input);
    }

    /**
     * Loading stored data: stored campaigns replace the list, and stored settings are
     * merged over the defaults (not over the current values).
     */
    method Load(data: SavedData)
      modifies this
      ensures campaigns == if data.campaigns.Some? then data.campaigns.value else old(campaigns)
      ensures settings == if data.settings.Some? then MergeSettings(DefaultSettings, data.settings.value) else old(settings)
      ensures wpSettings == if data.wpSettings.Some? then MergeWPSettings(DefaultWPSettings, data.wpSettings.value) else old(wpSettings)
      ensures editingId == old(editingId) && form == old(form)
      ensures wpStatus == old(wpStatus) && wpMessage == old(wpMessage)
    {
      if data.campaigns.Some? {
        campaigns := data.campaigns.value;
      }
      if data.settings.Some? {
        settings := MergeSettings(DefaultSettings, data.settings.value);
      }
      if data.wpSettings.Some? {
        wpSettings := MergeWPSettings(DefaultWPSettings, data.wpSettings.value);
      }
    }

    /**
     * `updateWP`: without a site URL or a page id nothing is sent and nothing changes;
     * otherwise the publisher runs on the current state and its result becomes the status
     * and the message. Returns the request sent, if any.
     */
    method UpdateWP(year: nat, outcome: WordPressService.Outcome) returns (sent: Option<WordPressService.Request>)
      modifies this
      ensures !old(CanPublish(wpSettings)) ==> sent == None && wpStatus == old(wpStatus) && wpMessage == old(wpMessage)
      ensures old(CanPublish(wpSettings)) ==>
        var p := WordPressService.UpdateWordPressPage(campaigns, settings, wpSettings, year, outcome);
        && sent == p.sent
        && wpStatus == (if p.result.success then Succeeded else Failed)
        && wpMessage == p.result.message
      ensures campaigns == old(campaigns) && editingId == old(editingId) && form == old(form)
      ensures settings == old(settings) && wpSettings == old(wpSettings)
    {
      if !CanPublish(wpSettings) {
        return None;
      }
      var p := WordPressService.UpdateWordPressPage(campaigns, settings, wpSettings, year, outcome);
      wpStatus := if p.result.success then Succeeded else Failed;
      wpMessage := p.result.message;
      sent := p.sent;
    }
  }
}
