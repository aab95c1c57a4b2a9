/**
 * The logic of the projects page: the search and language filter, the choices of
 * the language filter, the relative dates on the cards and the delete confirmation.
 */
module ProjectsPage {
  import opened Wrappers
  import opened Seqs
  import opened Strings
  import opened AppContext

  /** A card is shown when its name contains the search term, ignoring case, and its language passes the filter. */
  predicate Matches(p: Project, searchTerm: string, filterLanguage: string)
  {
    && Includes(ToLower(p.name), ToLower(searchTerm))
    && (filterLanguage == "all" || p.language == filterLanguage)
  }

  function Shown(searchTerm: string, filterLanguage: string): Project -> bool
  {
    (p: Project) => Matches(p, searchTerm, filterLanguage)
  }

  /** `filteredProjects`: exactly the matching projects, in the registry's order. */
  function FilteredProjects(ps: seq<Project>, searchTerm: string, filterLanguage: string): (r: seq<Project>)
    ensures IsSubseq(r, ps)
    ensures forall i :: 0 <= i < |r| ==> Matches(r[i], searchTerm, filterLanguage)
    ensures forall i :: 0 <= i < |ps| && Matches(ps[i], searchTerm, filterLanguage) ==> ps[i] in r
    ensures |r| == Count(ps, Shown(searchTerm, filterLanguage))
  {
    var r := Filter(ps, Shown(searchTerm, filterLanguage));
    assert forall i :: 0 <= i < |r| ==> Shown(searchTerm, filterLanguage)(r[i]);
    r
  }

  /** An empty search with the 'all' filter shows the whole registry. */
  lemma NoFilterShowsAll(ps: seq<Project>)
    ensures FilteredProjects(ps, "", "all") == ps
  {
    forall i | 0 <= i < |ps| ensures Shown("", "all")(ps[i]) {
      assert OccursAt(ToLower(ps[i].name), ToLower(""), 0);
    }
    FilterKeepsAll(ps, Shown("", "all"));
  }

  /** The search is case-insensitive: lower-casing the term first changes nothing. */
  lemma SearchIgnoresCase(p: Project, searchTerm: string, filterLanguage: string)
    ensures Matches(p, ToLower(searchTerm), filterLanguage) == Matches(p, searchTerm, filterLanguage)
  {
    ToLowerIdempotent(searchTerm);
  }

  /** `languages`: 'all', then each project language once, in the order of first appearance. */
  function LanguageOptions(ps: seq<Project>): (r: seq<string>)
    ensures |r| >= 1 && r[0] == "all"
    ensures FirstAppearances(r[1..], Languages(ps))
  {
    var d := Distinct(Languages(ps));
    assert (["all"] + d)[1..] == d;
    ["all"] + d
  }

  /** The relative age `formatDate` shows. */
  datatype Age = JustNow | HoursAgo(hours: nat) | OneDayAgo | DaysAgo(days: nat)

  /** `Math.floor((now - date) / (1000 * 60 * 60))`: the whole hours elapsed, rounded down. */
  function HoursSince(date: int, now: int): (h: int)
    ensures h * HourMs <= now - date < (h + 1) * HourMs
  {
    (now - date) / HourMs
  }

  /** The age band of a date, with the counts it carries. */
  function AgeOf(date: int, now: int): (r: Age)
    ensures r.JustNow? <==> now - date < HourMs
    ensures r.HoursAgo? <==> HourMs <= now - date < 24 * HourMs
    ensures r.OneDayAgo? <==> 24 * HourMs <= now - date < 48 * HourMs
    ensures r.DaysAgo? <==> 48 * HourMs <= now - date
    ensures r.HoursAgo? ==> 1 <= r.hours < 24 && r.hours * HourMs <= now - date < (r.hours + 1) * HourMs
    ensures r.DaysAgo? ==> 2 <= r.days && r.days * 24 * HourMs <= now - date < (r.days + 1) * 24 * HourMs
  {
    var h := HoursSince(date, now);
    if h < 1 then JustNow
    else if h < 24 then HoursAgo(h)
    else if h < 48 then OneDayAgo
    else DaysAgo(h / 24)
  }

  /** The text of an age band. */
  function AgeText(a: Age): string
  {
    match a
    case JustNow => "Just now"
    case HoursAgo(h) => NatToString(h) + " hours ago"
    case OneDayAgo => "1 day ago"
    case DaysAgo(d) => NatToString(d) + " days ago"
  }

  /**
   * `formatDate(date)` read at time `now`: 'Just now' under an hour, 'N hours ago' with the
   * whole hours up to a day, '1 day ago' on the second day, then 'N days ago' with the whole days.
   */
  function FormatDate(date: int, now: int): (r: string)
    ensures r == "Just now" <==> now - date < HourMs
    ensures r == "1 day ago" <==> 24 * HourMs <= now - date < 48 * HourMs
    ensures HourMs <= now - date < 24 * HourMs ==>
      |r| > 10 && r[|r| - 10..] == " hours ago"
      && (forall i :: 0 <= i < |r| - 10 ==> '0' <= r[i] <= '9') && r[0] != '0'
      && DecimalValue(r[..|r| - 10]) * HourMs <= now - date < (DecimalValue(r[..|r| - 10]) + 1) * HourMs
    ensures 48 * HourMs <= now - date ==>
      |r| > 9 && r[|r| - 9..] == " days ago"
      && (forall i :: 0 <= i < |r| - 9 ==> '0' <= r[i] <= '9') && r[0] != '0'
      && DecimalValue(r[..|r| - 9]) * 24 * HourMs <= now - date < (DecimalValue(r[..|r| - 9]) + 1) * 24 * HourMs
  {
    var a := AgeOf(date, now);
    var r := AgeText(a);
    match a
    case JustNow => r
    case HoursAgo(h) =>
      var n := NatToString(h);
      assert r[..|r| - 10] == n && r[|r| - 10..] == " hours ago";
      assert r[|r| - 1] == 'o' && r[|r| - 5] == 's';
      r
    case OneDayAgo => r
    case DaysAgo(d) =>
      var n := NatToString(d);
      assert r[..|r| - 9] == n && r[|r| - 9..] == " days ago";
      assert r[|r| - 1] == 'o' && r[|r| - 5] == 's';
      r
  }

  /** A date in the future, or less than an hour old, reads 'Just now'. */
  lemma FutureIsJustNow(date: int, now: int)
    requires now < date + HourMs
    ensures FormatDate(date, now) == "Just now"
  {
  }

  /** The delete dialog: the id waiting for confirmation and whether the modal is open. */
  datatype DeleteDialog = DeleteDialog(pending: Option<string>, open: bool)

  /** `handleDeleteProject`: remember the id and open the modal. */
  function RequestDelete(id: string): (r: DeleteDialog)
    ensures r.open && r.pending == Some(id)
  {
    DeleteDialog(Some(id), true)
  }

  /**
   * `confirmDelete`: a pending id that is a non-empty string is deleted, and the dialog is
   * cleared and closed; with no such id nothing happens.
   */
  method ConfirmDelete(app: AppProvider, dialog: DeleteDialog) returns (next: DeleteDialog)
    requires app.Valid()
    modifies app, app.storage
    ensures app.Valid() && app.user == old(app.user)
    ensures dialog.pending.Some? && dialog.pending.value != "" ==>
      next == DeleteDialog(None, false) && app.Data() == AfterDelete(old(app.Data()), dialog.pending.value)
    ensures dialog.pending.Some? && dialog.pending.value != "" ==>
      app.storage.entries == if app.user.Some?
        then old(app.storage.entries)[ProjectsKey(app.user.value) := ProjectsSnapshot(app.projects)]
                                     [UsageKey(app.user.value) := UsageSnapshot(app.usageStats)]
        else old(app.storage.entries)
    ensures !(dialog.pending.Some? && dialog.pending.value != "") ==>
      next == dialog && app.Data() == old(app.Data()) && app.storage.entries == old(app.storage.entries)
  {
    next := dialog;
    if dialog.pending.Some? && dialog.pending.value != "" {
      app.DeleteProject(dialog.pending.value);
      next := DeleteDialog(None, false);
    }
  }

  /**
   * Clicking delete on a card and then confirming: a non-empty id is deleted and the dialog
   * ends closed and cleared; the empty id deletes nothing and leaves the dialog open on it.
   */
  method DeleteThroughDialog(app: AppProvider, id: string) returns (next: DeleteDialog)
    requires app.Valid()
    modifies app, app.storage
    ensures app.Valid() && app.user == old(app.user)
    ensures id != "" ==> next == DeleteDialog(None, false) && app.Data() == AfterDelete(old(app.Data()), id)
    ensures id != "" ==>
      app.storage.entries == if app.user.Some?
        then old(app.storage.entries)[ProjectsKey(app.user.value) := ProjectsSnapshot(app.projects)]
                                     [UsageKey(app.user.value) := UsageSnapshot(app.usageStats)]
        else old(app.storage.entries)
    ensures id == "" ==>
      next == DeleteDialog(Some(""), true) && app.Data() == old(app.Data())
      && app.storage.entries == old(app.storage.entries)
  {
    next := ConfirmDelete(app, RequestDelete(id));
  }
}
