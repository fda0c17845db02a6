/** The help centre (components/HelpCenter.tsx): the knowledge base, the
    instant search over articles, standards and links, the icon lookup, the
    link-management permission, and the two edit dialogs with their
    required-field guards and new-record defaults. The registry of standards
    and links and its save service belong to the application context, which
    is not part of this model: the outcome of a save is a parameter. */
module HelpCenter {
  import opened Js
  import opened Types

  // ---------------------------------------------------------------------------
  // Records

  datatype Level = Basic | Advanced | Expert

  datatype Article = Article(id: string, title: string, category: string, content: string, level: Level, readTime: string)

  /** A regulatory standard; `status` is one of the dialog's options
      "Active", "Compliance" or "Technical". */
  datatype Standard = Standard(id: string, code: string, title: string, status: string, desc: string)

  /** A shortcut of the useful-links panel; `caption` is the link's label
      (`label` is a reserved word in Dafny) and `icon` names an icon option. */
  datatype UsefulLink = UsefulLink(id: string, caption: string, url: string, icon: string)

  /** The fixed knowledge base. */
  const KnowledgeBase: seq<Article> := [
    Article("1", "Fundamentals of MOC Lifecycle", "Basics",
            "The Management of Change (MOC) process is a systematic approach to technical changes in complex industrial environments.",
            Basic, "5 min"),
    Article("2", "Navigating the Digital Twin", "Basics",
            "Learn how to interpret real-time telemetry and parametric streams from facility assets using the MOC Studio interface.",
            Basic, "3 min"),
    Article("3", "Quantitative Risk Assessment Methodology", "Risk",
            "MOC Studio uses a 5x5 Probability vs Severity matrix to calculate composite risk scores for every technical submission.",
            Advanced, "8 min"),
    Article("4", "Role-Based Access Control (RBAC)", "Governance",
            "Understanding the hierarchy of sign-off authority between Engineers, Managers, and Auditors for industrial compliance.",
            Advanced, "4 min"),
    Article("5", "Emergency Bypass Protocols", "Safety",
            "Procedures for initiating immediate changes during critical failures or safety upsets without standard review delays.",
            Expert, "10 min")
  ]

  /** Five articles with distinct ids. */
  lemma KnowledgeBaseIds()
    ensures |KnowledgeBase| == 5
    ensures forall i, j :: 0 <= i < j < |KnowledgeBase| ==> KnowledgeBase[i].id != KnowledgeBase[j].id
  {
    forall i, j | 0 <= i < j < |KnowledgeBase|
      ensures KnowledgeBase[i].id != KnowledgeBase[j].id
    {
      assert KnowledgeBase[i].id == [(('1' as int) + i) as char];
      assert KnowledgeBase[j].id == [(('1' as int) + j) as char];
    }
  }

  // ---------------------------------------------------------------------------
  // Instant search

  /** Some field, lower-cased, contains the (already lower-cased) query. */
  predicate AnyFieldIncludes(fields: seq<string>, lowerQuery: string) {
    exists k :: 0 <= k < |fields| && Includes(ToLower(fields[k]), lowerQuery)
  }

  /** The search shared by the three lists: a blank term (empty or white
      space only) leaves the list as it is; otherwise the term is lower-cased,
      but not trimmed, and the items with a field containing it are kept in
      order. */
  function Search<T(==,!new)>(items: seq<T>, searchTerm: string, fields: T -> seq<string>): (r: seq<T>)
    ensures AllSpace(searchTerm) ==> r == items
    ensures !AllSpace(searchTerm) ==>
              forall x :: x in r <==> x in items && AnyFieldIncludes(fields(x), ToLower(searchTerm))
    ensures !AllSpace(searchTerm) ==>
              forall x :: multiset(r)[x] == if AnyFieldIncludes(fields(x), ToLower(searchTerm)) then multiset(items)[x] else 0
    ensures IsSubsequence(r, items) && |r| <= |items|
  {
    TrimEmptyIffBlank(searchTerm);
    if Trim(searchTerm) == "" then
      assert IsSubsequence(items, items) by { SubsequenceRefl(items); }
      items
    else
      var lowerQuery := ToLower(searchTerm);
      Filter(items, (x: T) => AnyFieldIncludes(fields(x), lowerQuery))
  }

  lemma {:induction false} SubsequenceRefl<T>(s: seq<T>)
    ensures IsSubsequence(s, s)
  {
    if s != [] {
      SubsequenceRefl(s[1..]);
    }
  }

  /** The search ignores the case of the term. */
  lemma SearchIgnoresCase<T(!new)>(items: seq<T>, searchTerm: string, fields: T -> seq<string>)
    ensures Search(items, ToLower(searchTerm), fields) == Search(items, searchTerm, fields)
  {
    LowerKeepsBlank(searchTerm);
    ToLowerIdempotent(searchTerm);
    TrimEmptyIffBlank(searchTerm);
    TrimEmptyIffBlank(ToLower(searchTerm));
  }

  /** A longer query finds no more: whatever matches a term that extends
      `searchTerm` also matches `searchTerm`. */
  lemma NarrowingSearch<T(!new)>(items: seq<T>, searchTerm: string, more: string, fields: T -> seq<string>)
    requires !AllSpace(searchTerm)
    ensures forall x :: x in Search(items, searchTerm + more, fields) ==> x in Search(items, searchTerm, fields)
  {
    assert !AllSpace(searchTerm + more) by {
      var i :| 0 <= i < |searchTerm| && !IsSpace(searchTerm[i]);
      assert (searchTerm + more)[i] == searchTerm[i];
    }
    LowerConcat(searchTerm, more);
    forall x | x in Search(items, searchTerm + more, fields)
      ensures x in Search(items, searchTerm, fields)
    {
      FieldsIncludePrefix(fields(x), ToLower(searchTerm), ToLower(more));
    }
  }

  lemma FieldsIncludePrefix(fields: seq<string>, q: string, more: string)
    requires AnyFieldIncludes(fields, q + more)
    ensures AnyFieldIncludes(fields, q)
  {
    var k :| 0 <= k < |fields| && Includes(ToLower(fields[k]), q + more);
    IncludesPrefix(ToLower(fields[k]), q, more);
  }

  /** A text containing `q + more` contains `q`. */
  lemma IncludesPrefix(hay: string, q: string, more: string)
    requires Includes(hay, q + more)
    ensures Includes(hay, q)
  {
    var i :| OccursAt(hay, q + more, i);
    assert hay[i..i + |q|] == hay[i..i + |q + more|][..|q|];
    assert OccursAt(hay, q, i);
  }

  /** Lower-casing distributes over concatenation. */
  lemma LowerConcat(a: string, b: string)
    ensures ToLower(a + b) == ToLower(a) + ToLower(b)
  {
    assert forall i :: 0 <= i < |a + b| ==> (a + b)[i] == if i < |a| then a[i] else b[i - |a|];
  }

  function ArticleFields(a: Article): seq<string> {
    [a.title, a.content, a.category]
  }

  function StandardFields(s: Standard): seq<string> {
    [s.code, s.title, s.desc]
  }

  function LinkFields(l: UsefulLink): seq<string> {
    [l.caption, l.url]
  }

  /** The article matches on its title, content or category. */
  predicate ArticleMatches(a: Article, lowerQuery: string) {
    Includes(ToLower(a.title), lowerQuery) || Includes(ToLower(a.content), lowerQuery) ||
    Includes(ToLower(a.category), lowerQuery)
  }

  /** The standard matches on its code, title or description. */
  predicate StandardMatches(s: Standard, lowerQuery: string) {
    Includes(ToLower(s.code), lowerQuery) || Includes(ToLower(s.title), lowerQuery) ||
    Includes(ToLower(s.desc), lowerQuery)
  }

  /** The link matches on its label or URL. */
  predicate LinkMatches(l: UsefulLink, lowerQuery: string) {
    Includes(ToLower(l.caption), lowerQuery) || Includes(ToLower(l.url), lowerQuery)
  }

  lemma ArticleFieldsMatch(a: Article, q: string)
    ensures AnyFieldIncludes(ArticleFields(a), q) <==> ArticleMatches(a, q)
  {
    var f := ArticleFields(a);
    assert f[0] == a.title && f[1] == a.content && f[2] == a.category;
  }

  lemma StandardFieldsMatch(s: Standard, q: string)
    ensures AnyFieldIncludes(StandardFields(s), q) <==> StandardMatches(s, q)
  {
    var f := StandardFields(s);
    assert f[0] == s.code && f[1] == s.title && f[2] == s.desc;
  }

  lemma LinkFieldsMatch(l: UsefulLink, q: string)
    ensures AnyFieldIncludes(LinkFields(l), q) <==> LinkMatches(l, q)
  {
    var f := LinkFields(l);
    assert f[0] == l.caption && f[1] == l.url;
  }

  /** What `Search` promises, restated with a predicate that agrees with
      the field test on every item. */
  lemma SearchAs<T(!new)>(items: seq<T>, searchTerm: string, fields: T -> seq<string>, matches: T -> bool)
    requires forall x :: AnyFieldIncludes(fields(x), ToLower(searchTerm)) <==> matches(x)
    ensures !AllSpace(searchTerm) ==>
              (forall x :: x in Search(items, searchTerm, fields) <==> x in items && matches(x)) &&
              (forall x :: multiset(Search(items, searchTerm, fields))[x] == if matches(x) then multiset(items)[x] else 0)
  {
  }

  /** `filteredArticles`: the knowledge base searched by title, content and category. */
  function FilteredArticles(searchTerm: string): (r: seq<Article>)
    ensures AllSpace(searchTerm) ==> r == KnowledgeBase
    ensures !AllSpace(searchTerm) ==>
              forall a :: a in r <==> a in KnowledgeBase && ArticleMatches(a, ToLower(searchTerm))
    ensures !AllSpace(searchTerm) ==>
              forall a :: multiset(r)[a] == if ArticleMatches(a, ToLower(searchTerm)) then multiset(KnowledgeBase)[a] else 0
    ensures IsSubsequence(r, KnowledgeBase)
  {
    var r := Search(KnowledgeBase, searchTerm, ArticleFields);
    forall a ensures AnyFieldIncludes(ArticleFields(a), ToLower(searchTerm)) <==> ArticleMatches(a, ToLower(searchTerm)) {
      ArticleFieldsMatch(a, ToLower(searchTerm));
    }
    SearchAs(KnowledgeBase, searchTerm, ArticleFields, (a: Article) => ArticleMatches(a, ToLower(searchTerm)));
    r
  }

  /** `filteredStandards`: the standards searched by code, title and description. */
  function FilteredStandards(standards: seq<Standard>, searchTerm: string): (r: seq<Standard>)
    ensures AllSpace(searchTerm) ==> r == standards
    ensures !AllSpace(searchTerm) ==>
              forall s :: s in r <==> s in standards && StandardMatches(s, ToLower(searchTerm))
    ensures !AllSpace(searchTerm) ==>
              forall s :: multiset(r)[s] == if StandardMatches(s, ToLower(searchTerm)) then multiset(standards)[s] else 0
    ensures IsSubsequence(r, standards)
  {
    var r := Search(standards, searchTerm, StandardFields);
    forall s ensures AnyFieldIncludes(StandardFields(s), ToLower(searchTerm)) <==> StandardMatches(s, ToLower(searchTerm)) {
      StandardFieldsMatch(s, ToLower(searchTerm));
    }
    SearchAs(standards, searchTerm, StandardFields, (s: Standard) => StandardMatches(s, ToLower(searchTerm)));
    r
  }

  /** `filteredLinks`: the links searched by label and URL. */
  function FilteredLinks(links: seq<UsefulLink>, searchTerm: string): (r: seq<UsefulLink>)
    ensures AllSpace(searchTerm) ==> r == links
    ensures !AllSpace(searchTerm) ==>
              forall l :: l in r <==> l in links && LinkMatches(l, ToLower(searchTerm))
    ensures !AllSpace(searchTerm) ==>
              forall l :: multiset(r)[l] == if LinkMatches(l, ToLower(searchTerm)) then multiset(links)[l] else 0
    ensures IsSubsequence(r, links)
  {
    var r := Search(links, searchTerm, LinkFields);
    forall l ensures AnyFieldIncludes(LinkFields(l), ToLower(searchTerm)) <==> LinkMatches(l, ToLower(searchTerm)) {
      LinkFieldsMatch(l, ToLower(searchTerm));
    }
    SearchAs(links, searchTerm, LinkFields, (l: UsefulLink) => LinkMatches(l, ToLower(searchTerm)));
    r
  }

  /** The standard codes the dialog stores are upper-cased, which the
      case-blind search cannot tell apart from the typed text. */
  lemma UpperCasedCodesStillFound(s: Standard, typed: string, searchTerm: string)
    requires s.code == ToUpper(typed)
    ensures StandardMatches(s, ToLower(searchTerm)) == StandardMatches(s.(code := typed), ToLower(searchTerm))
  {
    LowerOfUpper(typed);
  }

  // ---------------------------------------------------------------------------
  // Icons

  datatype Icon =
    | Layout | Database | ScrollText | Fingerprint | Globe | Settings | Activity
    | Zap | BarChart3 | Shield | Boxes | Terminal | LinkIcon

  /** The name under which each icon is offered. */
  function IconName(i: Icon): string {
    match i
    case Layout => "Layout"
    case Database => "Database"
    case ScrollText => "ScrollText"
    case Fingerprint => "Fingerprint"
    case Globe => "Globe"
    case Settings => "Settings"
    case Activity => "Activity"
    case Zap => "Zap"
    case BarChart3 => "BarChart3"
    case Shield => "Shield"
    case Boxes => "Boxes"
    case Terminal => "Terminal"
    case LinkIcon => "Link"
  }

  /** `ICON_OPTIONS`, in order. */
  const IconOptions: seq<Icon> :=
    [Layout, Database, ScrollText, Fingerprint, Globe, Settings, Activity, Zap, BarChart3, Shield, Boxes, Terminal, LinkIcon]

  /** Every icon is offered, under a name no other icon has. */
  lemma IconOptionsComplete()
    ensures forall i: Icon :: i in IconOptions
    ensures forall i, j: Icon :: IconName(i) == IconName(j) ==> i == j
  {
    forall i: Icon ensures i in IconOptions {
      match i
      case Layout => assert IconOptions[0] == i;
      case Database => assert IconOptions[1] == i;
      case ScrollText => assert IconOptions[2] == i;
      case Fingerprint => assert IconOptions[3] == i;
      case Globe => assert IconOptions[4] == i;
      case Settings => assert IconOptions[5] == i;
      case Activity => assert IconOptions[6] == i;
      case Zap => assert IconOptions[7] == i;
      case BarChart3 => assert IconOptions[8] == i;
      case Shield => assert IconOptions[9] == i;
      case Boxes => assert IconOptions[10] == i;
      case Terminal => assert IconOptions[11] == i;
      case LinkIcon => assert IconOptions[12] == i;
    }
  }

  /** `getIconByName`: the first option with that name, or the link icon. */
  function GetIconByName(name: string): (r: Icon)
    ensures IconName(r) == name || (r == LinkIcon && forall i: Icon :: IconName(i) != name)
  {
    match Find(IconOptions, (i: Icon) => IconName(i) == name)
    case Some(i) => i
    case None => NoOptionNamed(name); LinkIcon
  }

  lemma NoOptionNamed(name: string)
    requires forall k :: 0 <= k < |IconOptions| ==> IconName(IconOptions[k]) != name
    ensures forall i: Icon :: IconName(i) != name
  {
    forall i: Icon ensures IconName(i) != name {
      IconOptionsComplete();
      assert i in IconOptions;
      var k :| 0 <= k < |IconOptions| && IconOptions[k] == i;
    }
  }

  /** Looking up an icon's own name gives that icon. */
  lemma IconNameRoundTrip(i: Icon)
    ensures GetIconByName(IconName(i)) == i
  {
    IconOptionsComplete();
  }

  // ---------------------------------------------------------------------------
  // Permission

  /** `canManageLinks`: the user's role value is 'Manager' or 'Auditor'. */
  predicate CanManageLinks(user: Option<User>) {
    user.Some? && (RoleValue(user.value.role) == "Manager" || RoleValue(user.value.role) == "Auditor")
  }

  /** No role has either value, and Admin is not exempted: nobody may manage
      links, so the manage, edit and delete controls never show. */
  lemma NobodyManagesLinks(user: Option<User>)
    ensures !CanManageLinks(user)
  {
    if user.Some? {
      match user.value.role
      case Admin => assert RoleValue(Admin)[0] == 'A';
      case GerenteInstalacao => assert RoleValue(GerenteInstalacao)[0] == 'G';
      case EngProcesso => assert RoleValue(EngProcesso)[0] == 'E';
      case TecnicoManutencao => assert RoleValue(TecnicoManutencao)[0] == 'T';
      case CoordHse => assert RoleValue(CoordHse)[0] == 'C' && RoleValue(CoordHse)[1] == 'O';
      case ComiteAprovacao => assert RoleValue(ComiteAprovacao)[0] == 'C' && RoleValue(ComiteAprovacao)[1] == 'O';
    }
  }

  // ---------------------------------------------------------------------------
  // Edit dialogs

  /** A standard may be saved only with a code and a title (a missing draft
      has neither). */
  predicate CanSaveStandard(draft: Option<Standard>) {
    draft.Some? && draft.value.code != "" && draft.value.title != ""
  }

  /** The standard form marks its code, title and description fields
      `required`, so the browser submits it only when all three are filled
      (a select without `required` does not hold it back). */
  predicate FormFilled(draft: Option<Standard>) {
    draft.Some? && draft.value.code != "" && draft.value.title != "" && draft.value.desc != ""
  }

  /** A form the browser submits always passes the handler's own guard; of
      the drafts the guard accepts, the browser holds back exactly those
      with an empty description. */
  lemma FormFilledPassesGuard(draft: Option<Standard>)
    ensures FormFilled(draft) ==> CanSaveStandard(draft)
    ensures CanSaveStandard(draft) ==> (FormFilled(draft) <==> draft.value.desc != "")
  {
  }

  /** A link may be saved only with a label and a URL. Its form marks the
      same two fields `required`, so the browser's check and this guard agree. */
  predicate CanSaveLink(draft: Option<UsefulLink>) {
    draft.Some? && draft.value.caption != "" && draft.value.url != ""
  }

  /** The draft of a new standard at time `now` (milliseconds): id "S<now>",
      empty code, title and description, status "Active". It cannot be saved
      until a code and a title are typed. */
  function NewStandard(now: nat): (r: Standard)
    ensures |r.id| > 1 && r.id[0] == 'S' && AllDigits(r.id[1..]) && ParseDigits(r.id[1..]) == now
    ensures r.code == "" && r.title == "" && r.status == "Active" && r.desc == ""
    ensures !CanSaveStandard(Some(r))
  {
    var r := Standard("S" + NatToString(now), "", "", "Active", "");
    assert r.id[1..] == NatToString(now);
    ParseNatToString(now);
    r
  }

  /** The draft of a new link at time `now`: id "L<now>", empty label and
      URL, the "Link" icon. It cannot be saved until both are typed. */
  function NewLink(now: nat): (r: UsefulLink)
    ensures |r.id| > 1 && r.id[0] == 'L' && AllDigits(r.id[1..]) && ParseDigits(r.id[1..]) == now
    ensures r.caption == "" && r.url == "" && r.icon == IconName(LinkIcon)
    ensures !CanSaveLink(Some(r))
  {
    var r := UsefulLink("L" + NatToString(now), "", "", "Link");
    assert r.id[1..] == NatToString(now);
    ParseNatToString(now);
    r
  }

  /** A new standard passes the handler's guard exactly when both a code
      (typed and upper-cased) and a title have been entered; the form around
      it also asks for a description (`NewStandardSubmittable`). */
  lemma NewStandardSavable(now: nat, code: string, title: string, status: string, desc: string)
    ensures CanSaveStandard(Some(NewStandard(now).(code := ToUpper(code), title := title, status := status, desc := desc)))
            <==> code != "" && title != ""
  {
  }

  /** A new standard is submitted exactly when a code, a title and a
      description have been entered, whatever the status. */
  lemma NewStandardSubmittable(now: nat, code: string, title: string, status: string, desc: string)
    ensures FormFilled(Some(NewStandard(now).(code := ToUpper(code), title := title, status := status, desc := desc)))
            <==> code != "" && title != "" && desc != ""
  {
  }

  /** A new link becomes savable exactly when both a label and a URL have
      been entered, whatever icon is chosen. */
  lemma NewLinkSavable(now: nat, caption: string, url: string, icon: Icon)
    ensures CanSaveLink(Some(NewLink(now).(caption := caption, url := url, icon := IconName(icon))))
            <==> caption != "" && url != ""
  {
  }

  /** The sidebar's shortcuts: the first five links, in order. */
  function SidebarLinks(links: seq<UsefulLink>): (r: seq<UsefulLink>)
    ensures r <= links
    ensures |r| == if |links| < 5 then |links| else 5
  {
    if |links| < 5 then links else links[..5]
  }

  /** The dialog state of the help centre. */
  class HelpCenterPanel {
    var isStandardModalOpen: bool
    var editingStandard: Option<Standard>
    var isSavingStandard: bool
    var isLinkModalOpen: bool
    var editingLink: Option<UsefulLink>
    var isSavingLink: bool

    /** An open dialog always has a draft to show. */
    predicate Valid()
      reads this
    {
      (isStandardModalOpen ==> editingStandard.Some?) && (isLinkModalOpen ==> editingLink.Some?)
    }

    constructor ()
      ensures Valid()
      ensures !isStandardModalOpen && editingStandard.None? && !isSavingStandard
      ensures !isLinkModalOpen && editingLink.None? && !isSavingLink
    {
      isStandardModalOpen := false;
      editingStandard := None;
      isSavingStandard := false;
      isLinkModalOpen := false;
      editingLink := None;
      isSavingLink := false;
    }

    /** `handleOpenStandardModal`: a copy of `s` to edit, or a new draft. */
    method OpenStandardModal(s: Option<Standard>, now: nat)
      requires Valid()
      modifies this`editingStandard, this`isStandardModalOpen
      ensures Valid()
      ensures editingStandard == Some(if s.Some? then s.value else NewStandard(now))
      ensures isStandardModalOpen
    {
      if s.Some? {
        editingStandard := Some(s.value);
      } else {
        editingStandard := Some(NewStandard(now));
      }
      isStandardModalOpen := true;
    }

    /** Typing a code: the dialog stores it upper-cased. */
    method EditStandardCode(text: string)
      requires Valid() && isStandardModalOpen
      modifies this`editingStandard
      ensures Valid()
      ensures editingStandard == Some(old(editingStandard).value.(code := ToUpper(text)))
    {
      editingStandard := Some(editingStandard.value.(code := ToUpper(text)));
    }

    method EditStandardTitle(text: string)
      requires Valid() && isStandardModalOpen
      modifies this`editingStandard
      ensures Valid()
      ensures editingStandard == Some(old(editingStandard).value.(title := text))
    {
      editingStandard := Some(editingStandard.value.(title := text));
    }

    method EditStandardDesc(text: string)
      requires Valid() && isStandardModalOpen
      modifies this`editingStandard
      ensures Valid()
      ensures editingStandard == Some(old(editingStandard).value.(desc := text))
    {
      editingStandard := Some(editingStandard.value.(desc := text));
    }

    method EditStandardStatus(status: string)
      requires Valid() && isStandardModalOpen
      modifies this`editingStandard
      ensures Valid()
      ensures editingStandard == Some(old(editingStandard).value.(status := status))
    {
      editingStandard := Some(editingStandard.value.(status := status));
    }

    method CloseStandardModal()
      requires Valid()
      modifies this`isStandardModalOpen
      ensures Valid() && !isStandardModalOpen
    {
      isStandardModalOpen := false;
    }

    /** Submitting the standard form: the browser holds the form back while
        a `required` field (code, title, description) is empty, and
        `handleSaveStandard` then returns without a code and a title;
        otherwise the draft is submitted (returned), the dialog closes when
        the save succeeds and stays open when it fails, and the saving flag
        ends cleared either way. */
    method SaveStandard(saveSucceeds: bool) returns (submitted: Option<Standard>)
      requires Valid()
      modifies this`isStandardModalOpen, this`isSavingStandard
      ensures Valid()
      ensures submitted.Some? <==> FormFilled(editingStandard)
      ensures submitted.Some? ==> CanSaveStandard(editingStandard)
      ensures submitted.Some? ==> submitted == editingStandard && !isSavingStandard &&
                                  isStandardModalOpen == (old(isStandardModalOpen) && !saveSucceeds)
      ensures submitted.None? ==> isStandardModalOpen == old(isStandardModalOpen) &&
                                  isSavingStandard == old(isSavingStandard)
    {
      if !FormFilled(editingStandard) || !CanSaveStandard(editingStandard) {
        return None;
      }
      isSavingStandard := true;
      submitted := editingStandard;
      if saveSucceeds {
        isStandardModalOpen := false;
      }
      isSavingStandard := false;
    }

    /** `handleOpenLinkModal`: a copy of `l` to edit, or a new draft. */
    method OpenLinkModal(l: Option<UsefulLink>, now: nat)
      requires Valid()
      modifies this`editingLink, this`isLinkModalOpen
      ensures Valid()
      ensures editingLink == Some(if l.Some? then l.value else NewLink(now))
      ensures isLinkModalOpen
    {
      if l.Some? {
        editingLink := Some(l.value);
      } else {
        editingLink := Some(NewLink(now));
      }
      isLinkModalOpen := true;
    }

    method EditLinkLabel(text: string)
      requires Valid() && isLinkModalOpen
      modifies this`editingLink
      ensures Valid()
      ensures editingLink == Some(old(editingLink).value.(caption := text))
    {
      editingLink := Some(editingLink.value.(caption := text));
    }

    method EditLinkUrl(text: string)
      requires Valid() && isLinkModalOpen
      modifies this`editingLink
      ensures Valid()
      ensures editingLink == Some(old(editingLink).value.(url := text))
    {
      editingLink := Some(editingLink.value.(url := text));
    }

    /** Picking an icon stores its name, which the lookup maps back to it. */
    method ChooseLinkIcon(icon: Icon)
      requires Valid() && isLinkModalOpen
      modifies this`editingLink
      ensures Valid()
      ensures editingLink == Some(old(editingLink).value.(icon := IconName(icon)))
      ensures GetIconByName(editingLink.value.icon) == icon
    {
      var name := IconName(icon);
      IconNameRoundTrip(icon);
      assert GetIconByName(name) == icon;
      editingLink := Some(editingLink.value.(icon := name));
    }

    method CloseLinkModal()
      requires Valid()
      modifies this`isLinkModalOpen
      ensures Valid() && !isLinkModalOpen
    {
      isLinkModalOpen := false;
    }

    /** `handleSaveLink`: the same protocol as for standards, guarded by a
        label and a URL. */
    method SaveLink(saveSucceeds: bool) returns (submitted: Option<UsefulLink>)
      requires Valid()
      modifies this`isLinkModalOpen, this`isSavingLink
      ensures Valid()
      ensures submitted.Some? <==> CanSaveLink(editingLink)
      ensures submitted.Some? ==> submitted == editingLink && !isSavingLink &&
                                  isLinkModalOpen == (old(isLinkModalOpen) && !saveSucceeds)
      ensures submitted.None? ==> isLinkModalOpen == old(isLinkModalOpen) && isSavingLink == old(isSavingLink)
    {
      if !CanSaveLink(editingLink) {
        return None;
      }
      isSavingLink := true;
      submitted := editingLink;
      if saveSucceeds {
        isLinkModalOpen := false;
      }
      isSavingLink := false;
    }
  }
}
