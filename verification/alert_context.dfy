/** The alert store shared by every page (src/context/AlertContext.tsx): a list
    of alerts replaced by four mutators. Fresh uuids and `Date.now()` readings
    are parameters of the mutators. */
module AlertContext {

  import opened Wrappers
  import Text
  import Seqs
  import StableSort

  datatype AlertType = Error | Warning | Info | Success

  /** The string each type is stored and compared as. */
  function TypeName(t: AlertType): (name: string)
    ensures name != []
  {
    match t
    case Error => "error"
    case Warning => "warning"
    case Info => "info"
    case Success => "success"
  }

  lemma TypeNameInjective(s: AlertType, t: AlertType)
    requires TypeName(s) == TypeName(t)
    ensures s == t
  {
  }

  datatype Alert = Alert(id: string, alertType: AlertType, message: string, timestamp: int, source: Option<string>)

  /** An alert without its id and timestamp: what `setAlertsList` is handed,
      and the triple its diff compares. */
  datatype AlertDraft = AlertDraft(alertType: AlertType, message: string, source: Option<string>)

  function DraftOf(a: Alert): AlertDraft {
    AlertDraft(a.alertType, a.message, a.source)
  }

  /** The comparator of `setAlertsList`, as `compare(a, b) <= 0`: by type name,
      then message, then source with a missing source taken as ''. */
  predicate DraftLe(a: AlertDraft, b: AlertDraft) {
    if a.alertType != b.alertType then Text.LexLe(TypeName(a.alertType), TypeName(b.alertType))
    else if a.message != b.message then Text.LexLe(a.message, b.message)
    else Text.LexLe(a.source.GetOr(""), b.source.GetOr(""))
  }

  /** The same comparator on stored alerts; ids and timestamps play no part. */
  predicate AlertLe(a: Alert, b: Alert) {
    DraftLe(DraftOf(a), DraftOf(b))
  }

  lemma DraftLeTotal(a: AlertDraft, b: AlertDraft)
    ensures DraftLe(a, b) || DraftLe(b, a)
  {
    Text.LexLeTotal(TypeName(a.alertType), TypeName(b.alertType));
    Text.LexLeTotal(a.message, b.message);
    Text.LexLeTotal(a.source.GetOr(""), b.source.GetOr(""));
  }

  lemma DraftLeTransitive(a: AlertDraft, b: AlertDraft, c: AlertDraft)
    requires DraftLe(a, b) && DraftLe(b, c)
    ensures DraftLe(a, c)
  {
    var na, nb, nc := TypeName(a.alertType), TypeName(b.alertType), TypeName(c.alertType);
    if a.alertType != b.alertType || b.alertType != c.alertType {
      if a.alertType == c.alertType {
        // a < b <= a or a <= b < a: the names would coincide
        if a.alertType != b.alertType {
          Text.LexLeAntisymmetric(na, nb);
          TypeNameInjective(a.alertType, b.alertType);
        } else {
          Text.LexLeAntisymmetric(nb, nc);
          TypeNameInjective(b.alertType, c.alertType);
        }
      } else if a.alertType != b.alertType && b.alertType != c.alertType {
        Text.LexLeTransitive(na, nb, nc);
      }
    } else if a.message != b.message || b.message != c.message {
      if a.message == c.message {
        if a.message != b.message {
          Text.LexLeAntisymmetric(a.message, b.message);
        } else {
          Text.LexLeAntisymmetric(b.message, c.message);
        }
      } else if a.message != b.message && b.message != c.message {
        Text.LexLeTransitive(a.message, b.message, c.message);
      }
    } else {
      Text.LexLeTransitive(a.source.GetOr(""), b.source.GetOr(""), c.source.GetOr(""));
    }
  }

  /** The comparator is a total preorder, so sorting by it is well behaved. */
  lemma DraftLeTotalPreorder()
    ensures StableSort.TotalPreorder(DraftLe)
  {
    forall a, b ensures DraftLe(a, b) || DraftLe(b, a) {
      DraftLeTotal(a, b);
    }
    forall a, b, c | DraftLe(a, b) && DraftLe(b, c) ensures DraftLe(a, c) {
      DraftLeTransitive(a, b, c);
    }
  }

  lemma AlertLeTotalPreorder()
    ensures StableSort.TotalPreorder(AlertLe)
  {
    DraftLeTotalPreorder();
  }

  /** `newAlerts.map(alert => ({...alert, id: uuidv4(), timestamp: Date.now()}))`,
      the i-th candidate taking the i-th fresh (id, timestamp) pair. */
  function WithIds(candidates: seq<AlertDraft>, stamps: seq<(string, int)>): (r: seq<Alert>)
    requires |stamps| == |candidates|
    ensures |r| == |candidates|
    ensures forall i :: 0 <= i < |r| ==> DraftOf(r[i]) == candidates[i]
    ensures forall i :: 0 <= i < |r| ==> r[i].id == stamps[i].0 && r[i].timestamp == stamps[i].1
  {
    seq(|candidates|, i requires 0 <= i < |candidates| =>
      Alert(stamps[i].0, candidates[i].alertType, candidates[i].message, stamps[i].1, candidates[i].source))
  }

  lemma DraftsOfWithIds(candidates: seq<AlertDraft>, stamps: seq<(string, int)>)
    requires |stamps| == |candidates|
    ensures Seqs.Map(WithIds(candidates, stamps), DraftOf) == candidates
  {
  }

  /** The `some` of the diff: at some position the two lists hold alerts whose
      type, message or source differ (sources compared with `!==`). */
  function AnyDiffers(existing: seq<Alert>, incoming: seq<Alert>): (r: bool)
    requires |existing| == |incoming|
    ensures r <==> exists i :: 0 <= i < |existing| && DraftOf(existing[i]) != DraftOf(incoming[i])
  {
    if existing == [] then false
    else
      DraftOf(existing[0]) != DraftOf(incoming[0]) || AnyDiffers(existing[1..], incoming[1..])
  }

  /** No position differs exactly when the two lists carry the same triples. */
  lemma AnyDiffersIffTriplesDiffer(existing: seq<Alert>, incoming: seq<Alert>)
    requires |existing| == |incoming|
    ensures AnyDiffers(existing, incoming) <==> Seqs.Map(existing, DraftOf) != Seqs.Map(incoming, DraftOf)
  {
    var e, n := Seqs.Map(existing, DraftOf), Seqs.Map(incoming, DraftOf);
    if !AnyDiffers(existing, incoming) {
      assert forall i :: 0 <= i < |e| ==> e[i] == n[i];
    } else {
      var i :| 0 <= i < |existing| && DraftOf(existing[i]) != DraftOf(incoming[i]);
      assert e[i] != n[i];
    }
  }

  /** The sorted candidates with their fresh ids: `sortedNewAlerts`. */
  function SortedIncoming(candidates: seq<AlertDraft>, stamps: seq<(string, int)>): seq<Alert>
    requires |stamps| == |candidates|
  {
    StableSort.SortBy(WithIds(candidates, stamps), AlertLe)
  }

  /** The state update of `setAlertsList`: the previous list when it holds, in
      sorted order, the same triples as the sorted candidates; the sorted
      candidates otherwise. */
  function Reconcile(prev: seq<Alert>, candidates: seq<AlertDraft>, stamps: seq<(string, int)>): seq<Alert>
    requires |stamps| == |candidates|
  {
    var incoming := SortedIncoming(candidates, stamps);
    var existing := StableSort.SortBy(prev, AlertLe);
    if |existing| != |incoming| then incoming
    else if AnyDiffers(existing, incoming) then incoming
    else prev
  }

  /** The triples of the sorted candidates are the candidates sorted. */
  lemma SortedIncomingDrafts(candidates: seq<AlertDraft>, stamps: seq<(string, int)>)
    requires |stamps| == |candidates|
    ensures Seqs.Map(SortedIncoming(candidates, stamps), DraftOf) == StableSort.SortBy(candidates, DraftLe)
  {
    StableSort.SortByMap(WithIds(candidates, stamps), AlertLe, DraftOf, DraftLe);
    DraftsOfWithIds(candidates, stamps);
  }

  /** The triples of the current list, sorted. */
  lemma SortedExistingDrafts(prev: seq<Alert>)
    ensures Seqs.Map(StableSort.SortBy(prev, AlertLe), DraftOf) == StableSort.SortBy(Seqs.Map(prev, DraftOf), DraftLe)
  {
    StableSort.SortByMap(prev, AlertLe, DraftOf, DraftLe);
  }

  /** When the number of alerts changes, the list becomes the sorted
      candidates with their fresh ids. */
  lemma ReconcileLengthChange(prev: seq<Alert>, candidates: seq<AlertDraft>, stamps: seq<(string, int)>)
    requires |stamps| == |candidates| && |prev| != |candidates|
    ensures Reconcile(prev, candidates, stamps) == SortedIncoming(candidates, stamps)
  {
  }

  /** The list is either kept as it was or replaced by the sorted candidates. */
  lemma ReconcileKeepsOrReplaces(prev: seq<Alert>, candidates: seq<AlertDraft>, stamps: seq<(string, int)>)
    requires |stamps| == |candidates|
    ensures var r := Reconcile(prev, candidates, stamps);
      r == prev || r == SortedIncoming(candidates, stamps)
  {
  }

  /** The sorted current list carrying, position by position, the same triples
      as the sorted candidates means the current list holds the candidates'
      triples in some order. */
  lemma {:induction false} SameSortedTriples(prev: seq<Alert>, candidates: seq<AlertDraft>, stamps: seq<(string, int)>)
    requires |stamps| == |candidates|
    ensures Seqs.Map(StableSort.SortBy(prev, AlertLe), DraftOf) == Seqs.Map(SortedIncoming(candidates, stamps), DraftOf)
        <==> StableSort.SortBy(Seqs.Map(prev, DraftOf), DraftLe) == StableSort.SortBy(candidates, DraftLe)
  {
    SortedIncomingDrafts(candidates, stamps);
    SortedExistingDrafts(prev);
  }

  /** Whatever happens, the store ends up holding the candidates' triples,
      counted with multiplicity, and as many alerts as there are candidates. */
  lemma {:induction false} ReconcileContents(prev: seq<Alert>, candidates: seq<AlertDraft>, stamps: seq<(string, int)>)
    requires |stamps| == |candidates|
    ensures var r := Reconcile(prev, candidates, stamps);
      |r| == |candidates| && multiset(Seqs.Map(r, DraftOf)) == multiset(candidates)
  {
    var r := Reconcile(prev, candidates, stamps);
    var incoming := SortedIncoming(candidates, stamps);
    var existing := StableSort.SortBy(prev, AlertLe);
    SortedIncomingDrafts(candidates, stamps);
    if r == incoming {
      assert multiset(StableSort.SortBy(candidates, DraftLe)) == multiset(candidates);
    } else {
      assert |existing| == |incoming| && !AnyDiffers(existing, incoming);
      AnyDiffersIffTriplesDiffer(existing, incoming);
      SameSortedTriples(prev, candidates, stamps);
      var p := Seqs.Map(prev, DraftOf);
      calc {
        multiset(p);
        multiset(StableSort.SortBy(p, DraftLe));
        multiset(StableSort.SortBy(candidates, DraftLe));
        multiset(candidates);
      }
    }
  }

  /** Whenever the list is replaced, the new list is in comparator order. */
  lemma ReconcileSortedWhenReplaced(prev: seq<Alert>, candidates: seq<AlertDraft>, stamps: seq<(string, int)>)
    requires |stamps| == |candidates|
    requires Reconcile(prev, candidates, stamps) != prev
    ensures StableSort.Sorted(Reconcile(prev, candidates, stamps), AlertLe)
  {
    AlertLeTotalPreorder();
    StableSort.SortBySorted(WithIds(candidates, stamps), AlertLe);
  }

  /** A second reconciliation with the same candidates, whatever fresh ids and
      timestamps it draws, keeps the result of the first. */
  lemma {:induction false} ReconcileIdempotent(prev: seq<Alert>, candidates: seq<AlertDraft>,
                                               stamps1: seq<(string, int)>, stamps2: seq<(string, int)>)
    requires |stamps1| == |candidates| && |stamps2| == |candidates|
    ensures var r1 := Reconcile(prev, candidates, stamps1);
      Reconcile(r1, candidates, stamps2) == r1
  {
    var r1 := Reconcile(prev, candidates, stamps1);
    var existing := StableSort.SortBy(r1, AlertLe);
    var incoming := SortedIncoming(candidates, stamps2);
    SortedIncomingDrafts(candidates, stamps1);
    SameSortedTriples(r1, candidates, stamps2);
    if r1 == SortedIncoming(candidates, stamps1) {
      DraftLeTotalPreorder();
      StableSort.SortByIdempotent(candidates, DraftLe);
    } else {
      var e1 := StableSort.SortBy(prev, AlertLe);
      assert |e1| == |SortedIncoming(candidates, stamps1)| && !AnyDiffers(e1, SortedIncoming(candidates, stamps1));
      AnyDiffersIffTriplesDiffer(e1, SortedIncoming(candidates, stamps1));
      SameSortedTriples(prev, candidates, stamps1);
    }
    AnyDiffersIffTriplesDiffer(existing, incoming);
  }

  /** A triple whose source is missing or non-empty. The comparator reads a
      missing source as '' while the diff tells the two apart, so a list that
      mixes a missing and an empty source can be replaced even when it holds
      the candidates' triples. */
  predicate PlainSource(d: AlertDraft) {
    d.source != Some("")
  }

  /** With plain sources, the list is kept exactly when it already holds the
      candidates' triples with the same multiplicities; its ids and
      timestamps then survive. */
  lemma {:induction false} ReconcileKeepsSameContents(prev: seq<Alert>, candidates: seq<AlertDraft>, stamps: seq<(string, int)>)
    requires |stamps| == |candidates|
    requires forall i :: 0 <= i < |prev| ==> PlainSource(DraftOf(prev[i]))
    requires forall i :: 0 <= i < |candidates| ==> PlainSource(candidates[i])
    requires multiset(Seqs.Map(prev, DraftOf)) == multiset(candidates)
    ensures Reconcile(prev, candidates, stamps) == prev
  {
    var p := Seqs.Map(prev, DraftOf);
    var incoming := SortedIncoming(candidates, stamps);
    var existing := StableSort.SortBy(prev, AlertLe);
    assert |p| == |multiset(p)| == |candidates|;
    DraftLeTotalPreorder();
    var sp, sc := StableSort.SortBy(p, DraftLe), StableSort.SortBy(candidates, DraftLe);
    StableSort.SortBySorted(p, DraftLe);
    StableSort.SortBySorted(candidates, DraftLe);
    forall d | d in multiset(sc) ensures PlainSource(d) {
      assert d in candidates;
    }
    forall d | d in multiset(sp) ensures PlainSource(d) {
      assert d in p;
    }
    SortedUnique(sp, sc);
    SameSortedTriples(prev, candidates, stamps);
    AnyDiffersIffTriplesDiffer(existing, incoming);
  }

  /** Two sorted sequences of plain triples with the same multiset are equal:
      on plain triples the comparator ties only equal values. */
  lemma {:induction false} SortedUnique(s: seq<AlertDraft>, t: seq<AlertDraft>)
    requires StableSort.Sorted(s, DraftLe) && StableSort.Sorted(t, DraftLe)
    requires forall d | d in multiset(s) :: PlainSource(d)
    requires multiset(s) == multiset(t)
    ensures s == t
    decreases |s|
  {
    if s != [] {
      assert |t| == |multiset(t)| == |s|;
      SortedHeadsEqual(s, t);
      TailsQualify(s, t);
      SortedUnique(s[1..], t[1..]);
      assert s == [s[0]] + s[1..] && t == [t[0]] + t[1..];
    }
  }

  /** Dropping the common head keeps both sequences sorted, plain and of the
      same multiset. */
  lemma TailsQualify(s: seq<AlertDraft>, t: seq<AlertDraft>)
    requires s != [] && t != [] && s[0] == t[0]
    requires StableSort.Sorted(s, DraftLe) && StableSort.Sorted(t, DraftLe)
    requires forall d | d in multiset(s) :: PlainSource(d)
    requires multiset(s) == multiset(t)
    ensures StableSort.Sorted(s[1..], DraftLe) && StableSort.Sorted(t[1..], DraftLe)
    ensures forall d | d in multiset(s[1..]) :: PlainSource(d)
    ensures multiset(s[1..]) == multiset(t[1..])
  {
    StableSort.SortedTail(s, DraftLe);
    StableSort.SortedTail(t, DraftLe);
    TailMultiset(s);
    TailMultiset(t);
    forall d | d in multiset(s[1..]) ensures PlainSource(d) {
      assert d in multiset(s);
    }
  }

  lemma TailMultiset(s: seq<AlertDraft>)
    requires s != []
    ensures multiset(s[1..]) == multiset(s) - multiset{s[0]}
  {
    assert s == [s[0]] + s[1..];
  }

  /** The first elements of two such sequences coincide. */
  lemma SortedHeadsEqual(s: seq<AlertDraft>, t: seq<AlertDraft>)
    requires s != [] && |t| == |s|
    requires StableSort.Sorted(s, DraftLe) && StableSort.Sorted(t, DraftLe)
    requires forall d | d in multiset(s) :: PlainSource(d)
    requires multiset(s) == multiset(t)
    ensures s[0] == t[0]
  {
    assert s[0] in multiset(t) && t[0] in multiset(s);
    var i :| 0 <= i < |t| && t[i] == s[0];
    var j :| 0 <= j < |s| && s[j] == t[0];
    DraftLeTotal(s[0], s[0]);
    DraftLeTotal(t[0], t[0]);
    assert DraftLe(t[0], s[0]) by {
      if i > 0 { assert DraftLe(t[0], t[i]); }
    }
    assert DraftLe(s[0], t[0]) by {
      if j > 0 { assert DraftLe(s[0], s[j]); }
    }
    DraftLeAntisymmetric(s[0], t[0]);
  }

  /** On plain triples the comparator is antisymmetric. */
  lemma DraftLeAntisymmetric(a: AlertDraft, b: AlertDraft)
    requires PlainSource(a) && PlainSource(b)
    requires DraftLe(a, b) && DraftLe(b, a)
    ensures a == b
  {
    if a.alertType != b.alertType {
      Text.LexLeAntisymmetric(TypeName(a.alertType), TypeName(b.alertType));
      TypeNameInjective(a.alertType, b.alertType);
    } else if a.message != b.message {
      Text.LexLeAntisymmetric(a.message, b.message);
    } else {
      Text.LexLeAntisymmetric(a.source.GetOr(""), b.source.GetOr(""));
    }
  }

  /** `removeAlert`'s update: the alerts whose id differs, in order. */
  function WithoutId(alerts: seq<Alert>, id: string): (r: seq<Alert>)
    ensures Seqs.IsSubsequence(r, alerts)
    ensures forall i :: 0 <= i < |r| ==> r[i].id != id
    ensures forall i :: 0 <= i < |alerts| && alerts[i].id != id ==> alerts[i] in r
    ensures forall i :: 0 <= i < |alerts| && alerts[i].id != id ==> multiset(r)[alerts[i]] == multiset(alerts)[alerts[i]]
  {
    var keep := (a: Alert) => a.id != id;
    Seqs.FilterKeepsCopies(alerts, keep);
    Seqs.Filter(alerts, keep)
  }

  /** Removing an id no alert carries changes nothing. */
  lemma WithoutAbsentId(alerts: seq<Alert>, id: string)
    requires forall i :: 0 <= i < |alerts| ==> alerts[i].id != id
    ensures WithoutId(alerts, id) == alerts
  {
    Seqs.FilterKeepsAll(alerts, (a: Alert) => a.id != id);
  }

  /** The provider's state: the alert list every page reads. */
  class AlertStore {
    var alerts: seq<Alert>

    constructor()
      ensures alerts == []
    {
      alerts := [];
    }

    /** `addAlert`: a new alert with a fresh id and the current time goes in front. */
    method AddAlert(alertType: AlertType, message: string, source: Option<string>, freshId: string, now: int)
      modifies this
      ensures alerts == [Alert(freshId, alertType, message, now, source)] + old(alerts)
    {
      var newAlert := Alert(freshId, alertType, message, now, source);
      alerts := [newAlert] + alerts;
    }

    /** `removeAlert`: drops every alert with the id. */
    method RemoveAlert(id: string)
      modifies this
      ensures alerts == WithoutId(old(alerts), id)
    {
      alerts := WithoutId(alerts, id);
    }

    /** `clearAllAlerts`. */
    method ClearAllAlerts()
      modifies this
      ensures alerts == []
    {
      alerts := [];
    }

    /** `setAlertsList`: both lists are sorted in place by the comparator, then
        compared by length and position by position. */
    method SetAlertsList(candidates: seq<AlertDraft>, stamps: seq<(string, int)>)
      requires |stamps| == |candidates|
      modifies this
      ensures alerts == Reconcile(old(alerts), candidates, stamps)
      ensures |alerts| == |candidates| && multiset(Seqs.Map(alerts, DraftOf)) == multiset(candidates)
    {
      ReconcileContents(alerts, candidates, stamps);
      var withIds := WithIds(candidates, stamps);
      var incoming := new Alert[|withIds|](i requires 0 <= i < |withIds| => withIds[i]);
      assert incoming[..] == withIds;
      StableSort.SortInPlace(incoming, AlertLe);
      var sortedNew := incoming[..];
      var prev := alerts;
      var existing := new Alert[|prev|](i requires 0 <= i < |prev| => prev[i]);
      assert existing[..] == prev;
      StableSort.SortInPlace(existing, AlertLe);
      if existing.Length != incoming.Length {
        alerts := sortedNew;
      } else if AnyDiffers(existing[..], sortedNew) {
        alerts := sortedNew;
      }
    }
  }
}
