/** The talent's application list: per-status counters (case-insensitive), per-status tabs
    (exact match) and the status badge colour. */
module MyApplications {
  import opened Seqs
  import opened Text

  datatype Application = Application(
    id: int,
    castingTitle: string,
    production: string,
    appliedDate: string,
    status: string,
    location: string,
    deadline: string,
    compensation: string,
    appType: string,
    message: string)

  // Long texts are written as concatenations of shorter literals.
  function InitialApplications(): seq<Application>
  {
    [
      Application(1, "Acteur Principal - " + "Film Historique", "Atlas Films", "2024-01-15", "En attente",
        "Tunis", "2024-02-15", "5000 TND", "Film", "Candidature envoy\U{00E9}e " + "avec CV et photos"),
      Application(2, "Mannequin - " + "Campagne Publicitaire", "Creative Agency", "2024-01-10", "Accept\U{00E9}e",
        "Sousse", "2024-01-25", "2000 TND", "Publicit\U{00E9}", "F\U{00E9}licitations! " + "Vous \U{00EA}tes s\U{00E9}lectionn\U{00E9}(e)"),
      Application(3, "Figurant - S\U{00E9}rie TV", "TV Production", "2024-01-08", "Refus\U{00E9}e",
        "Sfax", "2024-01-20", "300 TND", "S\U{00E9}rie", "Merci pour votre candidature. " + "Profil non retenu.")
    ]
  }

  const Pending := "En attente"
  const Accepted := "Accept\U{00E9}e"
  const Rejected := "Refus\U{00E9}e"

  /** `getStatusCount`: statuses compared after lowercasing both sides. */
  function StatusCount(apps: seq<Application>, status: string): nat
  {
    |Filter(apps, (a: Application) => Lower(a.status) == Lower(status))|
  }

  /** The tabs of the page. */
  datatype Tab = AllTab | PendingTab | AcceptedTab | RejectedTab

  function TabStatus(tab: Tab): string
    requires tab != AllTab
  {
    match tab
    case PendingTab => Pending
    case AcceptedTab => Accepted
    case RejectedTab => Rejected
  }

  /** The list a tab shows: everything, or the applications whose status is exactly the tab's. */
  function TabList(apps: seq<Application>, tab: Tab): seq<Application>
  {
    if tab == AllTab then apps else Filter(apps, (a: Application) => a.status == TabStatus(tab))
  }

  /** `getStatusColor`: matched on the lowercased status. */
  function StatusColor(status: string): string
  {
    var s := Lower(status);
    if s == "accept\U{00E9}e" then "bg-green-500"
    else if s == "refus\U{00E9}e" then "bg-red-500"
    else if s == "en attente" then "bg-yellow-500"
    else "bg-gray-500"
  }

  // ---- properties ----

  /** The three status constants lowercase to three different words. */
  lemma StatusesLower()
    ensures Lower(Pending) == "en attente" && Lower(Accepted) == "accept\U{00E9}e" && Lower(Rejected) == "refus\U{00E9}e"
  {
    PendingLower();
    AcceptedLower();
    RejectedLower();
  }

  lemma PendingLower()
    ensures Lower(Pending) == "en attente"
  {
    LowerIs(Pending, "en attente");
  }

  lemma AcceptedLower()
    ensures Lower(Accepted) == "accept\U{00E9}e"
  {
    LowerIs(Accepted, "accept\U{00E9}e");
  }

  lemma RejectedLower()
    ensures Lower(Rejected) == "refus\U{00E9}e"
  {
    LowerIs(Rejected, "refus\U{00E9}e");
  }

  /** Each counter is at most the total, and the three counters together are at most the
      total: no application is counted under two statuses. */
  lemma CountsBounded(apps: seq<Application>)
    ensures StatusCount(apps, Pending) <= |apps|
    ensures StatusCount(apps, Pending) + StatusCount(apps, Accepted) + StatusCount(apps, Rejected) <= |apps|
  {
    StatusesLower();
    FilterDisjointCount3(apps,
      (a: Application) => Lower(a.status) == Lower(Pending),
      (a: Application) => Lower(a.status) == Lower(Accepted),
      (a: Application) => Lower(a.status) == Lower(Rejected));
  }

  /** A tab shows, in order, exactly the applications with its status, and never more than the
      matching counter, which also counts differently-cased statuses. */
  lemma TabSpec(apps: seq<Application>, tab: Tab)
    requires tab != AllTab
    ensures IsSubsequence(TabList(apps, tab), apps)
    ensures forall a :: a in TabList(apps, tab) <==> a in apps && a.status == TabStatus(tab)
    ensures |TabList(apps, tab)| <= StatusCount(apps, TabStatus(tab))
    ensures forall a :: multiset(TabList(apps, tab))[a] == (if a.status == TabStatus(tab) then multiset(apps)[a] else 0)
  {
    var p := (a: Application) => a.status == TabStatus(tab);
    FilterIsSubsequence(apps, p);
    forall a
      ensures a in TabList(apps, tab) <==> a in apps && a.status == TabStatus(tab)
      ensures multiset(TabList(apps, tab))[a] == (if a.status == TabStatus(tab) then multiset(apps)[a] else 0)
    {
      FilterMembership(apps, p, a);
      FilterCount(apps, p, a);
    }
    FilterMonotone(apps, p, (a: Application) => Lower(a.status) == Lower(TabStatus(tab)));
  }

  /** The badge is grey exactly for a status that is none of the three, in any casing. */
  lemma StatusColorGrey(status: string)
    ensures StatusColor(status) == "bg-gray-500" <==>
      Lower(status) != Lower(Pending) && Lower(status) != Lower(Accepted) && Lower(status) != Lower(Rejected)
    ensures StatusColor(Pending) == "bg-yellow-500" && StatusColor(Accepted) == "bg-green-500" &&
      StatusColor(Rejected) == "bg-red-500"
  {
    StatusesLower();
  }
}
