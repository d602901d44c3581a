/** housing.admin (admin.js): the admin page. Its named lists are sorted by
    listSorter, which ranks the known lists in a fixed order ignoring case,
    puts lists with unknown names after them and keyless lists before every
    named one; each list is shown as a header with its key and one label per
    string; and the housing form's open/closed switch is driven by the
    response of `isOpen()`. */
module Admin {
  import opened JsValues
  import opened Endpoints

  /** One list delivered for the admin page: its name, which may be missing,
      and its entries. */
  datatype AdminList = AdminList(key: Option<string>, strings: seq<string>)

  /** The known lists, in the order the page shows them. */
  const KnownLists: seq<string> := ["room list", "student list", "admin list", "editor list"]

  function Reverse<T>(s: seq<T>): (r: seq<T>)
    ensures |r| == |s|
    ensures forall i :: 0 <= i < |s| ==> r[i] == s[|s| - 1 - i]
  {
    if s == [] then [] else Reverse(s[1..]) + [s[0]]
  }

  /** Array.prototype.indexOf: the first position of `x`, or -1. */
  function IndexOf(xs: seq<string>, x: string): (k: int)
    ensures -1 <= k < |xs|
    ensures k >= 0 ==> xs[k] == x && forall j :: 0 <= j < k ==> xs[j] != x
    ensures k == -1 <==> x !in xs
  {
    if xs == [] then -1
    else if xs[0] == x then 0
    else var k := IndexOf(xs[1..], x); if k == -1 then -1 else k + 1
  }

  /** `a.key` is truthy: present and not empty. */
  predicate HasKey(l: AdminList) {
    l.key.Some? && Truthy(l.key.value)
  }

  /** The position of a key in the reversed known-list order. */
  function KnownIndex(key: string): int {
    IndexOf(Reverse(KnownLists), Lower(key))
  }

  /** style.listSorter: a negative result puts `a` first. */
  function ListSorter(a: AdminList, b: AdminList): (c: int)
    ensures HasKey(a) && !HasKey(b) ==> c == 1
    ensures !HasKey(a) && HasKey(b) ==> c == -1
    ensures !HasKey(a) && !HasKey(b) ==> c == 0
  {
    if HasKey(a) && HasKey(b) then KnownIndex(b.key.value) - KnownIndex(a.key.value)
    else if HasKey(a) then 1
    else if HasKey(b) then -1
    else 0
  }

  /** The order listSorter implements, stated directly: a keyless list ranks
      -1, a known list its position in KnownLists ignoring case, and any
      other name 4, after all known lists. */
  function Rank(l: AdminList): (r: int)
    ensures -1 <= r <= |KnownLists|
  {
    if !HasKey(l) then -1
    else if Lower(l.key.value) in KnownLists then IndexOfKnown(Lower(l.key.value))
    else |KnownLists|
  }

  function IndexOfKnown(k: string): (i: nat)
    requires k in KnownLists
    ensures i < |KnownLists| && KnownLists[i] == k
  {
    if k == "room list" then 0
    else if k == "student list" then 1
    else if k == "admin list" then 2
    else 3
  }

  /** The reversed-list index of a named list is the mirror image of its rank. */
  lemma KnownIndexMirrorsRank(l: AdminList)
    requires HasKey(l)
    ensures KnownIndex(l.key.value) == |KnownLists| - 1 - Rank(l)
  {
    var rev, k := Reverse(KnownLists), Lower(l.key.value);
    assert rev == ["editor list", "admin list", "student list", "room list"];
    if k in KnownLists {
      assert rev[|KnownLists| - 1 - IndexOfKnown(k)] == k;
    } else {
      assert k !in rev;
    }
  }

  /** For two named lists the comparator is exactly the difference of their
      ranks; in every case it has the sign of that difference. */
  lemma ListSorterIsRankOrder(a: AdminList, b: AdminList)
    ensures HasKey(a) && HasKey(b) ==> ListSorter(a, b) == Rank(a) - Rank(b)
    ensures ListSorter(a, b) < 0 <==> Rank(a) < Rank(b)
    ensures ListSorter(a, b) == 0 <==> Rank(a) == Rank(b)
  {
    if HasKey(a) {
      KnownIndexMirrorsRank(a);
    }
    if HasKey(b) {
      KnownIndexMirrorsRank(b);
    }
  }

  /** Known list p ranks p. */
  lemma RankOfKnown(p: nat, strings: seq<string>)
    requires p < |KnownLists|
    ensures Rank(AdminList(Some(KnownLists[p]), strings)) == p
  {
    LowerKnownList(p);
  }

  /** The known lists come in the order room, student, admin, editor, and a
      list with any other name after all of them. */
  lemma KnownListsInOrder(p: nat, q: nat, other: string)
    requires p < q < |KnownLists|
    requires Truthy(other) && Lower(other) !in KnownLists
    ensures ListSorter(AdminList(Some(KnownLists[p]), []), AdminList(Some(KnownLists[q]), [])) < 0
    ensures ListSorter(AdminList(Some(KnownLists[q]), []), AdminList(Some(other), [])) < 0
  {
    var a, b, u := AdminList(Some(KnownLists[p]), []), AdminList(Some(KnownLists[q]), []),
                   AdminList(Some(other), []);
    RankOfKnown(p, []);
    RankOfKnown(q, []);
    ListSorterIsRankOrder(a, b);
    ListSorterIsRankOrder(b, u);
  }

  lemma LowerKnownList(p: nat)
    requires p < |KnownLists|
    ensures Lower(KnownLists[p]) == KnownLists[p]
  {
    if p == 0 {
      LowerWithoutCapitals("room list");
    } else if p == 1 {
      LowerWithoutCapitals("student list");
    } else if p == 2 {
      LowerWithoutCapitals("admin list");
    } else {
      LowerWithoutCapitals("editor list");
    }
  }

  /** Names are compared ignoring case. */
  lemma ListSorterIgnoresCase(a: AdminList, b: AdminList)
    requires HasKey(a)
    ensures ListSorter(a, b) == ListSorter(a.(key := Some(Lower(a.key.value))), b)
  {
    LowerIdempotent(a.key.value);
    assert Truthy(Lower(a.key.value));
  }

  /** The comparator is antisymmetric and every list ties with itself. */
  lemma ListSorterAntisymmetric(a: AdminList, b: AdminList)
    ensures ListSorter(a, b) == -ListSorter(b, a)
    ensures ListSorter(a, a) == 0
  {
  }

  /** The comparator is transitive, so it is a consistent order for sort. */
  lemma ListSorterTransitive(a: AdminList, b: AdminList, c: AdminList)
    requires ListSorter(a, b) <= 0 && ListSorter(b, c) <= 0
    ensures ListSorter(a, c) <= 0
  {
    ListSorterIsRankOrder(a, b);
    ListSorterIsRankOrder(b, c);
    ListSorterIsRankOrder(a, c);
  }

  ghost predicate SortedByRank(s: seq<AdminList>) {
    SortedPrefix(s, |s|, Rank)
  }

  /** A rank-sorted list is in listSorter order: no later list compares
      before an earlier one. */
  lemma SortedByRankIsListSorterOrder(s: seq<AdminList>)
    requires SortedByRank(s)
    ensures forall p, q :: 0 <= p < q < |s| ==> ListSorter(s[p], s[q]) <= 0
  {
    forall p, q | 0 <= p < q < |s|
      ensures ListSorter(s[p], s[q]) <= 0
    {
      ListSorterIsRankOrder(s[p], s[q]);
    }
  }

  /** The first `n` entries of `s` are in `rank` order. */
  ghost predicate SortedPrefix<T>(s: seq<T>, n: int, rank: T -> int)
    requires 0 <= n <= |s|
  {
    forall p, q :: 0 <= p < q < n ==> rank(s[p]) <= rank(s[q])
  }

  /** While entry `j` moves down into the sorted `s[..i + 1]`: the other
      entries are in order, and entry `j` is not after anything above it. */
  ghost predicate Inserting<T>(s: seq<T>, i: int, j: int, rank: T -> int)
    requires 0 <= j <= i < |s|
  {
    && (forall p, q :: 0 <= p < q <= i && p != j && q != j ==> rank(s[p]) <= rank(s[q]))
    && (forall q :: j < q <= i ==> rank(s[j]) <= rank(s[q]))
  }

  lemma StartInserting<T>(s: seq<T>, i: int, rank: T -> int)
    requires 0 <= i < |s| && SortedPrefix(s, i, rank)
    ensures Inserting(s, i, i, rank)
  {
  }

  /** Swapping entry `j` with a predecessor that ranks after it keeps the
      insertion invariant one position lower. */
  lemma SwapDown<T>(s: seq<T>, i: int, j: int, rank: T -> int)
    requires 0 < j <= i < |s| && Inserting(s, i, j, rank) && rank(s[j - 1]) > rank(s[j])
    ensures Inserting(s[j - 1 := s[j]][j := s[j - 1]], i, j - 1, rank)
  {
    var t := s[j - 1 := s[j]][j := s[j - 1]];
    forall p, q | 0 <= p < q <= i && p != j - 1 && q != j - 1
      ensures rank(t[p]) <= rank(t[q])
    {
      if p == j {
        assert rank(t[p]) == rank(s[j - 1]);
      } else if q == j {
        assert rank(t[q]) == rank(s[j - 1]);
      }
    }
  }

  /** Once the predecessor does not rank after entry `j`, `s[..i + 1]` is sorted. */
  lemma DoneInserting<T>(s: seq<T>, i: int, j: int, rank: T -> int)
    requires 0 <= j <= i < |s| && Inserting(s, i, j, rank)
    requires j == 0 || rank(s[j - 1]) <= rank(s[j])
    ensures SortedPrefix(s, i + 1, rank)
  {
    forall p, q | 0 <= p < q <= i
      ensures rank(s[p]) <= rank(s[q])
    {
      if q == j && p < j - 1 {
        assert rank(s[p]) <= rank(s[j - 1]);
      }
    }
  }

  /** Array.prototype.sort with a compare function, in place. `rank` is an
      order the comparator is consistent with: `cmp(x, y) > 0` exactly when
      `x` ranks after `y`. */
  method SortBy<T(!new)>(a: array<T>, cmp: (T, T) -> int, ghost rank: T -> int)
    requires forall x, y :: cmp(x, y) > 0 <==> rank(x) > rank(y)
    modifies a
    ensures SortedPrefix(a[..], a.Length, rank)
    ensures multiset(a[..]) == multiset(old(a[..]))
  {
    if a.Length == 0 {
      return;
    }
    for i := 1 to a.Length
      invariant SortedPrefix(a[..], i, rank)
      invariant multiset(a[..]) == multiset(old(a[..]))
    {
      Insert(a, i, cmp, rank);
    }
  }

  /** One insertion step: moves entry `i` down into the sorted prefix before it. */
  method Insert<T(!new)>(a: array<T>, i: int, cmp: (T, T) -> int, ghost rank: T -> int)
    requires forall x, y :: cmp(x, y) > 0 <==> rank(x) > rank(y)
    requires 0 <= i < a.Length && SortedPrefix(a[..], i, rank)
    modifies a
    ensures SortedPrefix(a[..], i + 1, rank)
    ensures multiset(a[..]) == multiset(old(a[..]))
  {
    StartInserting(a[..], i, rank);
    var j := i;
    while j > 0 && cmp(a[j - 1], a[j]) > 0
      invariant 0 <= j <= i
      invariant Inserting(a[..], i, j, rank)
      invariant multiset(a[..]) == multiset(old(a[..]))
    {
      ghost var s := a[..];
      SwapDown(s, i, j, rank);
      a[j - 1], a[j] := a[j], a[j - 1];
      assert a[..] == s[j - 1 := s[j]][j := s[j - 1]];
      j := j - 1;
    }
    DoneInserting(a[..], i, j, rank);
  }

  /** `data.sort(listSorter)` in `start`: sorts the delivered lists in place,
      into the order Rank states. */
  method SortLists(a: array<AdminList>)
    modifies a
    ensures SortedByRank(a[..])
    ensures multiset(a[..]) == multiset(old(a[..]))
  {
    forall x, y
      ensures ListSorter(x, y) > 0 <==> Rank(x) > Rank(y)
    {
      ListSorterIsRankOrder(x, y);
      ListSorterAntisymmetric(x, y);
      ListSorterIsRankOrder(y, x);
    }
    SortBy(a, ListSorter, Rank);
  }

  /** style.title: the header of a list is its key. */
  function Titles(lists: seq<AdminList>): (h: seq<Option<string>>)
    ensures |h| == |lists|
    ensures forall i :: 0 <= i < |lists| ==> h[i] == lists[i].key
  {
    if lists == [] then [] else [lists[0].key] + Titles(lists[1..])
  }

  /** style.simple on every entry of every list: each label shows its own
      string. */
  function Labels(lists: seq<AdminList>): (l: seq<seq<string>>)
    ensures |l| == |lists|
    ensures forall i :: 0 <= i < |lists| ==> l[i] == lists[i].strings
  {
    if lists == [] then [] else [lists[0].strings] + Labels(lists[1..])
  }

  /** After sorting, the headers show the known lists first in their fixed
      order and one header per delivered list. */
  lemma SortedTitlesFollowKnownOrder(s: seq<AdminList>, p: nat, q: nat)
    requires SortedByRank(s) && p < q < |s|
    requires Titles(s)[p].Some? && Titles(s)[q].Some?
    requires Lower(Titles(s)[p].value) in KnownLists && Lower(Titles(s)[q].value) in KnownLists
    requires Truthy(Titles(s)[p].value) && Truthy(Titles(s)[q].value)
    ensures IndexOfKnown(Lower(Titles(s)[p].value)) <= IndexOfKnown(Lower(Titles(s)[q].value))
  {
    assert Rank(s[p]) <= Rank(s[q]);
  }

  const FormOpen: string := "Housing Form Open"
  const FormClosed: string := "Housing Form Closed"

  /** What the `isOpen()` response does to the admin navigation. */
  datatype IsOpenEffect =
    | ShowSwitch(isOpen: bool, caption: string)   // record the state, add switch and label
    | Silent                                    // nothing is added or shown
    | Report(outcome: Outcome)                  // an error message

  /** The handlers `init` passes to `isOpen().then`. */
  function OnIsOpen(resp: Result<bool, ApiError>): (e: IsOpenEffect)
    ensures e.ShowSwitch? <==> resp.Ok?
    ensures e.ShowSwitch? ==> e.isOpen == resp.value && (e.caption == FormOpen <==> e.isOpen)
    ensures e.ShowSwitch? ==> e.caption == FormOpen || e.caption == FormClosed
    ensures e.Silent? <==> resp.Err? && (resp.error.code == Some(404) || resp.error.code == Some(600))
    ensures e.Report? ==> (e.outcome.reauthRequested <==> resp.error.code == Some(401))
    ensures e.Report? && resp.error.code == Some(401) ==> e.outcome == ErrorHelper(resp.error, "isOpen()")
    ensures e.Report? && resp.error.code != Some(401) ==>
      e.outcome == DisplayError(ServerError + "'isOpen()'", false)
  {
    match resp
    case Ok(isOpen) => ShowSwitch(isOpen, if isOpen then FormOpen else FormClosed)
    case Err(error) =>
      if error.code == Some(401) then Report(ErrorHelper(error, "isOpen()"))
      else if error.code == Some(404) || error.code == Some(600) then Silent
      else Report(DisplayError(ServerError + "'isOpen()'", false))
  }

  /** The housing.admin state, as one value. */
  datatype AdminView = AdminView(
    signInShown: bool,
    isOpen: Option<bool>,
    switchLabel: Option<string>,
    reports: seq<Outcome>,
    titles: seq<Option<string>>,
    labels: seq<seq<string>>)

  class AdminPage {
    var signInShown: bool
    var isOpen: Option<bool>             // housing.admin.isOpen
    var switchLabel: Option<string>      // the text next to the form switch
    var reports: seq<Outcome>
    var titles: seq<Option<string>>      // the list headers, in order
    var labels: seq<seq<string>>         // the entries shown under each list

    ghost function View(): AdminView
      reads this
    {
      AdminView(signInShown, isOpen, switchLabel, reports, titles, labels)
    }

    constructor ()
      ensures View() == AdminView(false, None, None, [], [], [])
    {
      signInShown, isOpen, switchLabel, reports, titles, labels := false, None, None, [], [], [];
    }

    /** init: with a navigation element it clears the navigation, which
        removes the sign-in button and any form switch, and applies the
        `isOpen()` response; it then makes one header per list, titled with
        the list's key. */
    method Init(navPresent: bool, data: seq<AdminList>, isOpenResponse: Result<bool, ApiError>)
      modifies this
      ensures !navPresent ==> View() == old(View()).(titles := Titles(data))
      ensures navPresent ==> View() == match OnIsOpen(isOpenResponse)
        case ShowSwitch(o, caption) =>
          old(View()).(signInShown := false, isOpen := Some(o), switchLabel := Some(caption),
                       titles := Titles(data))
        case Silent => old(View()).(signInShown := false, switchLabel := None, titles := Titles(data))
        case Report(outcome) =>
          old(View()).(signInShown := false, switchLabel := None,
                       reports := old(reports) + [outcome], titles := Titles(data))
    {
      if navPresent {
        signInShown, switchLabel := false, None;
        match OnIsOpen(isOpenResponse)
        case ShowSwitch(o, caption) =>
          isOpen, switchLabel := Some(o), Some(caption);
        case Silent =>
        case Report(outcome) =>
          reports := reports + [outcome];
      }
      titles := Titles(data);
    }

    /** load: one label per string of each list. */
    method Load(data: seq<AdminList>)
      modifies this
      ensures View() == old(View()).(labels := Labels(data))
    {
      labels := Labels(data);
    }

    /** start: it clears the navigation either way. Signed in, it sorts the
        lists `loadAdmin()` delivered in place and shows them; otherwise it
        shows the sign-in button. */
    method Start(authorized: bool, data: array<AdminList>, isOpenResponse: Result<bool, ApiError>)
      modifies this, data
      ensures !authorized ==>
        View() == old(View()).(signInShown := true, switchLabel := None) && data[..] == old(data[..])
      ensures authorized ==> SortedByRank(data[..]) && multiset(data[..]) == multiset(old(data[..]))
      ensures authorized ==> View() == match OnIsOpen(isOpenResponse)
        case ShowSwitch(o, caption) =>
          old(View()).(signInShown := false, isOpen := Some(o), switchLabel := Some(caption),
                       titles := Titles(data[..]), labels := Labels(data[..]))
        case Silent =>
          old(View()).(signInShown := false, switchLabel := None,
                       titles := Titles(data[..]), labels := Labels(data[..]))
        case Report(outcome) =>
          old(View()).(signInShown := false, switchLabel := None, reports := old(reports) + [outcome],
                       titles := Titles(data[..]), labels := Labels(data[..]))
    {
      signInShown, switchLabel := false, None;
      if authorized {
        SortLists(data);
        Init(true, data[..], isOpenResponse);
        Load(data[..]);
      } else {
        signInShown := true;
      }
    }
  }

  /** Each start rebuilds the navigation: a switch shown by an earlier start
      is gone when `isOpen()` later answers 404, and signing in after a
      sign-out removes the sign-in button. */
  method RestartScenario(a: array<AdminList>) returns (firstLabel: Option<string>, secondLabel: Option<string>,
                                                      outShowsSignIn: bool, inShowsSignIn: bool)
    modifies a
    ensures firstLabel == Some(FormOpen) && secondLabel == None
    ensures outShowsSignIn && !inShowsSignIn
  {
    var p := new AdminPage();
    p.Start(true, a, Ok(true));
    firstLabel := p.switchLabel;
    p.Start(true, a, Err(ApiError(Some(404), "")));
    secondLabel := p.switchLabel;
    p.Start(false, a, Ok(true));
    outShowsSignIn := p.signInShown;
    p.Start(true, a, Ok(true));
    inShowsSignIn := p.signInShown;
  }
}
