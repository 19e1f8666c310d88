// A subscription run: filtering what was received, and probing candidates with a bounded crew of workers.
module ProbeDispatcher {
  import opened Common

  // ---- sorting ---------------------------------------------------------------------------------

  /** An endpoint by its fingerprint, with the history the subscription reports. */
  datatype Candidate = Candidate(key: string, lastOk: int, streak: int, latency: int)

  type Less = (Candidate, Candidate) -> bool

  /** A stable sort: nobody goes before an equal that came earlier. */
  function Insert(x: Candidate, s: seq<Candidate>, less: Less): seq<Candidate> {
    if s == [] || !less(s[0], x) then [x] + s else [s[0]] + Insert(x, s[1..], less)
  }

  function SortStable(s: seq<Candidate>, less: Less): seq<Candidate> {
    if s == [] then [] else Insert(s[0], SortStable(s[1..], less), less)
  }

  /** Comparing sorts `over`: what is not behind is passed on, and nobody is before whom he is behind. */
  ghost predicate Sorts(less: Less, over: set<Candidate>) {
    && (forall x, y :: x in over && y in over && less(x, y) ==> !less(y, x))
    && (forall x, y, z :: x in over && y in over && z in over && !less(z, y) && !less(y, x) ==> !less(z, x))
  }

  /** `a` may come before `b`: by `less`, and by `tie` among equals. */
  predicate Before(a: Candidate, b: Candidate, less: Less, tie: Less) {
    !less(b, a) && (!less(a, b) ==> !tie(b, a))
  }

  predicate Ordered(s: seq<Candidate>, less: Less, tie: Less) {
    forall i, j :: 0 <= i < j < |s| ==> Before(s[i], s[j], less, tie)
  }

  function Never(): Less { (a: Candidate, b: Candidate) => false }

  function Elements(s: seq<Candidate>): set<Candidate> { set c | c in s }

  lemma ConsOrdered(x: Candidate, s: seq<Candidate>, less: Less, tie: Less)
    requires Ordered(s, less, tie) && forall y :: y in s ==> Before(x, y, less, tie)
    ensures Ordered([x] + s, less, tie)
  {
    hide Before;
    var r := [x] + s;
    forall i, j | 0 <= i < j < |r| ensures Before(r[i], r[j], less, tie) {
      assert r[j] == s[j - 1] && s[j - 1] in s;
      if i > 0 { assert r[i] == s[i - 1]; }
    }
  }

  lemma HeadFirst(s: seq<Candidate>, less: Less, tie: Less)
    requires s != [] && Ordered(s, less, tie)
    ensures Ordered(s[1..], less, tie) && forall y :: y in s[1..] ==> Before(s[0], y, less, tie)
  {
    hide Before;
    forall y | y in s[1..] ensures Before(s[0], y, less, tie) {
      var j :| 0 <= j < |s| - 1 && s[1..][j] == y;
      assert Before(s[0], s[j + 1], less, tie);
    }
  }

  /** In front of an ordered list whose head is not before x, x comes before everybody. */
  lemma BeforeAll(x: Candidate, s: seq<Candidate>, over: set<Candidate>, less: Less, tie: Less)
    requires s != [] && Ordered(s, less, tie) && Sorts(less, over) && x in over && Elements(s) <= over
    requires !less(s[0], x) && forall y :: y in s ==> !tie(y, x)
    ensures forall y :: y in s ==> Before(x, y, less, tie)
  {
    HeadFirst(s, less, tie);
    hide Ordered;
    forall y | y in s ensures Before(x, y, less, tie) {
      assert y in Elements(s) && s[0] in Elements(s);
      if y != s[0] {
        assert s == [s[0]] + s[1..] && y in s[1..];
        assert !less(y, s[0]) && !less(s[0], x);
      }
    }
  }

  lemma {:induction false} InsertOrdered(x: Candidate, s: seq<Candidate>, over: set<Candidate>, less: Less, tie: Less)
    requires Ordered(s, less, tie) && Sorts(less, over) && x in over && Elements(s) <= over
    requires forall y :: y in s ==> !tie(y, x)
    ensures Ordered(Insert(x, s, less), less, tie) && Elements(Insert(x, s, less)) == Elements(s) + {x}
  {
    if s == [] {
      assert Insert(x, s, less) == [x];
    } else if !less(s[0], x) {
      BeforeAll(x, s, over, less, tie);
      hide Ordered, Sorts;
      ConsOrdered(x, s, less, tie);
    } else {
      assert s[0] in Elements(s) && Before(s[0], x, less, tie);
      assert s == [s[0]] + s[1..] && Elements(s) == Elements(s[1..]) + {s[0]};
      HeadFirst(s, less, tie);
      hide Ordered, Sorts, Before;
      InsertOrdered(x, s[1..], over, less, tie);
      var rest := Insert(x, s[1..], less);
      forall y | y in rest ensures Before(s[0], y, less, tie) {
        assert y in Elements(rest);
      }
      ConsOrdered(s[0], rest, less, tie);
      assert Elements([s[0]] + rest) == {s[0]} + Elements(rest);
    }
  }

  /** Sorting a list that is ordered by `tie` orders it by `less`, and by `tie` among equals, whenever comparing
      sorts its elements. */
  lemma {:induction false} SortOrders(s: seq<Candidate>, over: set<Candidate>, less: Less, tie: Less)
    requires Sorts(less, over) && Elements(s) <= over
    requires forall i, j :: 0 <= i < j < |s| ==> !tie(s[j], s[i])
    ensures Ordered(SortStable(s, less), less, tie) && Elements(SortStable(s, less)) == Elements(s)
  {
    hide Sorts, Before;
    if s != [] {
      assert s == [s[0]] + s[1..] && Elements(s) == Elements(s[1..]) + {s[0]};
      SortOrders(s[1..], over, less, tie);
      var rest := SortStable(s[1..], less);
      forall y | y in rest ensures !tie(y, s[0]) {
        assert y in Elements(rest);
        assert y in s[1..];
      }
      hide Ordered;
      InsertOrdered(s[0], rest, over, less, tie);
    }
  }

  lemma {:induction false} InsertKeeps(x: Candidate, s: seq<Candidate>, less: Less)
    ensures multiset(Insert(x, s, less)) == multiset(s) + multiset{x} && |Insert(x, s, less)| == |s| + 1
  {
    if s != [] && less(s[0], x) {
      assert s == [s[0]] + s[1..];
      InsertKeeps(x, s[1..], less);
    }
  }

  /** However it compares, sorting keeps the elements. */
  lemma {:induction false} SortKeeps(s: seq<Candidate>, less: Less)
    ensures multiset(SortStable(s, less)) == multiset(s) && |SortStable(s, less)| == |s|
  {
    if s != [] {
      assert s == [s[0]] + s[1..];
      SortKeeps(s[1..], less);
      InsertKeeps(s[0], SortStable(s[1..], less), less);
    }
  }

  // ---- comparing histories ---------------------------------------------------------------------

  /** Fingerprints compare as byte strings do. */
  predicate KeyLess(a: string, b: string) {
    b != "" && (a == "" || a[0] < b[0] || (a[0] == b[0] && KeyLess(a[1..], b[1..])))
  }

  lemma {:induction false} KeysSort(a: string, b: string, c: string)
    ensures KeyLess(a, b) ==> !KeyLess(b, a)
    ensures !KeyLess(c, b) && !KeyLess(b, a) ==> !KeyLess(c, a)
  {
    if a != "" && b != "" && c != "" {
      KeysSort(a[1..], b[1..], c[1..]);
    } else if a != "" && b != "" {
      KeysSort(a[1..], b[1..], "");
    }
  }

  /** The better history goes first: the later success, the longer streak, the shorter latency that is known, and
      then the key. */
  predicate Better(a: Candidate, b: Candidate) {
    if a.lastOk != b.lastOk then a.lastOk > b.lastOk
    else if a.streak != b.streak then a.streak > b.streak
    else if a.latency != b.latency then a.latency > 0 && (b.latency <= 0 || a.latency < b.latency)
    else KeyLess(a.key, b.key)
  }

  /** Two latencies that are not positive are the same one. */
  ghost predicate Timed(cs: set<Candidate>) {
    forall c, d :: c in cs && d in cs && c.latency <= 0 && d.latency <= 0 ==> c.latency == d.latency
  }

  lemma HistorySorts(cs: set<Candidate>)
    requires Timed(cs)
    ensures Sorts(Better, cs)
  {
    forall x, y | x in cs && y in cs && Better(x, y) ensures !Better(y, x) { KeysSort(x.key, y.key, ""); }
    forall x, y, z | x in cs && y in cs && z in cs && !Better(z, y) && !Better(y, x) ensures !Better(z, x) {
      KeysSort(x.key, y.key, z.key);
    }
  }

  /** The comparison is no order among two different latencies that are not positive: they count as equal,
      and the keys decide on either side of them. */
  lemma HistorySortsExactly(lastOk: int, streak: int, l: int, m: int)
    ensures Sorts(Better, {Candidate("a", lastOk, streak, l), Candidate("b", lastOk, streak, m), Candidate("c", lastOk, streak, l)})
            <==> l == m || l > 0 || m > 0
  {
    var a, b, c := Candidate("a", lastOk, streak, l), Candidate("b", lastOk, streak, m), Candidate("c", lastOk, streak, l);
    assert KeyLess("a", "c") && !KeyLess("c", "a");
    if l == m || l > 0 || m > 0 {
      HistorySorts({a, b, c});
    } else {
      assert Better(a, c) && !Better(a, b) && !Better(b, c);
    }
  }

  // ---- filtering -------------------------------------------------------------------------------

  /** One received row: refused by the parser, or an endpoint. */
  datatype Row = Bad | Endpoint(candidate: Candidate)

  datatype Counts = Counts(received: nat, rejected: nat, existing: nat, blocked: nat, candidates: seq<Candidate>)

  function Keys(rows: seq<Row>): set<string> {
    set i | 0 <= i < |rows| && rows[i].Endpoint? :: rows[i].candidate.key
  }

  function KeySet(cs: seq<Candidate>): set<string> {
    set c | c in cs :: c.key
  }

  predicate DistinctKeys(cs: seq<Candidate>) {
    forall i, j :: 0 <= i < j < |cs| ==> cs[i].key != cs[j].key
  }

  /** The endpoint's first row. */
  predicate FirstRow(rows: seq<Row>, i: nat)
    requires i < |rows|
  {
    rows[i].Endpoint? && forall j :: 0 <= j < i && rows[j].Endpoint? ==> rows[j].candidate.key != rows[i].candidate.key
  }

  /** The endpoints as their first rows describe them, in order of appearance. */
  function FirstRows(rows: seq<Row>, n: nat): seq<Candidate>
    requires n <= |rows|
  {
    if n == 0 then [] else FirstRows(rows, n - 1) + (if FirstRow(rows, n - 1) then [rows[n - 1].candidate] else [])
  }

  predicate ByHistory(cs: seq<Candidate>) {
    forall i, j :: 0 <= i < j < |cs| ==> !Better(cs[j], cs[i])
  }

  /** Rows are refused, repeated, or new; each new endpoint is listed once, as its first row describes it, best
      history first as far as latencies can be compared. */
  method Parse(rows: seq<Row>) returns (listed: seq<Candidate>, rejected: nat, repeated: nat)
    ensures |rows| == rejected + repeated + |listed| && rejected == |Refused(rows)|
    ensures DistinctKeys(listed) && KeySet(listed) == Keys(rows)
    ensures multiset(listed) == multiset(FirstRows(rows, |rows|))
    ensures Timed(Elements(listed)) ==> ByHistory(listed)
  {
    rejected, repeated := 0, 0;
    var out: seq<Candidate>, seen: set<string> := [], {};
    for n := 0 to |rows|
      invariant n == rejected + repeated + |out| && rejected == |Refused(rows[..n])|
      invariant DistinctKeys(out) && KeySet(out) == seen == Keys(rows[..n]) && out == FirstRows(rows, n)
    {
      assert rows[..n + 1][..n] == rows[..n];
      KeysNext(rows, n);
      match rows[n] {
        case Bad => rejected := rejected + 1;
        case Endpoint(candidate) =>
          SeenBefore(rows, n);
          if candidate.key in seen {
            repeated := repeated + 1;
          } else {
            MoreKeys(out, candidate);
            seen := seen + {candidate.key};
            out := out + [candidate];
          }
      }
    }
    assert rows[..|rows|] == rows;
    hide FirstRows, KeySet, Keys, SortStable, DistinctKeys;
    SortKeeps(out, Better);
    listed := SortStable(out, Better);
    SameKeys(out, listed);
    if Timed(Elements(listed)) { SortedByHistory(out); }
  }

  lemma SortedByHistory(out: seq<Candidate>)
    requires Timed(Elements(SortStable(out, Better)))
    ensures ByHistory(SortStable(out, Better))
  {
    SortKeeps(out, Better);
    var listed := SortStable(out, Better);
    forall c ensures c in Elements(listed) <==> c in Elements(out) {
      assert c in multiset(listed) <==> c in multiset(out);
    }
    HistorySorts(Elements(out));
    hide Better, Sorts;
    SortOrders(out, Elements(out), Better, Never());
    assert forall i, j :: 0 <= i < j < |listed| ==> Before(listed[i], listed[j], Better, Never());
  }

  lemma KeysNext(rows: seq<Row>, n: nat)
    requires n < |rows|
    ensures Keys(rows[..n + 1]) == Keys(rows[..n]) + (if rows[n].Endpoint? then {rows[n].candidate.key} else {})
  {
    var a, b := rows[..n + 1], rows[..n];
    forall k ensures k in Keys(a) <==> k in Keys(b) || (rows[n].Endpoint? && k == rows[n].candidate.key) {
      if k in Keys(b) {
        var i :| 0 <= i < |b| && b[i].Endpoint? && b[i].candidate.key == k;
        assert a[i] == b[i];
      }
      if rows[n].Endpoint? { assert a[n] == rows[n]; }
    }
  }

  lemma SeenBefore(rows: seq<Row>, n: nat)
    requires n < |rows| && rows[n].Endpoint?
    ensures FirstRow(rows, n) <==> rows[n].candidate.key !in Keys(rows[..n])
  {
    var b := rows[..n];
    if !FirstRow(rows, n) {
      var j :| 0 <= j < n && rows[j].Endpoint? && rows[j].candidate.key == rows[n].candidate.key;
      assert b[j] == rows[j];
    }
  }

  lemma MoreKeys(out: seq<Candidate>, c: Candidate)
    requires DistinctKeys(out) && c.key !in KeySet(out)
    ensures DistinctKeys(out + [c]) && KeySet(out + [c]) == KeySet(out) + {c.key}
  {
    assert forall i :: 0 <= i < |out| ==> out[i] in out && out[i].key in KeySet(out);
    forall k ensures k in KeySet(out + [c]) <==> k in KeySet(out) || k == c.key {
      assert c in out + [c];
      assert forall d :: d in out ==> d in out + [c];
    }
  }

  lemma OnceOnly(a: seq<Candidate>, x: Candidate)
    requires DistinctKeys(a) && x in a
    ensures multiset(a)[x] == 1
  {
    var p :| 0 <= p < |a| && a[p] == x;
    assert a == a[..p] + [x] + a[p + 1..];
    assert x !in a[..p] && x !in a[p + 1..];
  }

  lemma TwiceCounts(b: seq<Candidate>, i: nat, j: nat)
    requires i < j < |b| && b[i] == b[j]
    ensures multiset(b)[b[j]] >= 2
  {
    assert b == b[..j] + [b[j]] + b[j + 1..];
    assert b[..j][i] == b[j];
  }

  /** A reordered list has the same elements, and its keys stay distinct. */
  lemma SameKeys(a: seq<Candidate>, b: seq<Candidate>)
    requires multiset(a) == multiset(b) && DistinctKeys(a)
    ensures DistinctKeys(b) && (forall c :: c in a <==> c in b) && KeySet(a) == KeySet(b)
  {
    forall c ensures c in a <==> c in b { assert c in multiset(a) <==> c in multiset(b); }
    forall i, j | 0 <= i < j < |b| ensures b[i].key != b[j].key {
      if b[i].key == b[j].key {
        assert b[i] in a && b[j] in a;
        TwiceCounts(b, i, j);
        OnceOnly(a, b[j]);
      }
    }
  }

  /** Those of them whose key is in the set. */
  function Keyed(cs: seq<Candidate>, keys: set<string>): set<Candidate> {
    set c | c in cs && c.key in keys
  }

  lemma KeyedNext(cs: seq<Candidate>, n: nat, keys: set<string>)
    requires n < |cs| && DistinctKeys(cs)
    ensures |Keyed(cs[..n + 1], keys)| == |Keyed(cs[..n], keys)| + (if cs[n].key in keys then 1 else 0)
  {
    var c := cs[n];
    assert forall d :: d in cs[..n + 1] <==> d in cs[..n] || d == c;
    assert c !in cs[..n];
    if c.key in keys {
      assert Keyed(cs[..n + 1], keys) == Keyed(cs[..n], keys) + {c};
    } else {
      assert Keyed(cs[..n + 1], keys) == Keyed(cs[..n], keys);
    }
  }

  /** Known and blocked endpoints are left out of the candidates and counted, one that is both as known; the order
      stays. */
  method Filter(listed: seq<Candidate>, known: set<string>, blockedKeys: set<string>)
    returns (candidates: seq<Candidate>, existing: nat, blocked: nat)
    requires DistinctKeys(listed)
    ensures |listed| == existing + blocked + |candidates|
    ensures DistinctKeys(candidates) && (ByHistory(listed) ==> ByHistory(candidates))
    ensures forall c :: c in candidates <==> c in listed && c.key !in known && c.key !in blockedKeys
    ensures existing == |Keyed(listed, known)| && blocked == |Keyed(listed, blockedKeys - known)|
  {
    hide Keyed, Chosen, Better, DistinctKeys, ByHistory;
    candidates, existing, blocked := [], 0, 0;
    NothingChosen(listed, known, blockedKeys);
    for n := 0 to |listed|
      invariant n == existing + blocked + |candidates| && Chosen(candidates, listed, n, known, blockedKeys)
      invariant existing == |Keyed(listed[..n], known)| && blocked == |Keyed(listed[..n], blockedKeys - known)|
    {
      KeyedNext(listed, n, known);
      KeyedNext(listed, n, blockedKeys - known);
      ChosenNext(candidates, listed, n, known, blockedKeys);
      if listed[n].key in known {
        existing := existing + 1;
      } else if listed[n].key in blockedKeys {
        blocked := blocked + 1;
      } else {
        candidates := candidates + [listed[n]];
      }
    }
    ChosenAll(candidates, listed, known, blockedKeys);
    assert listed[..|listed|] == listed;
  }

  /** The candidates among the first `n` endpoints, in their order. */
  ghost predicate Chosen(candidates: seq<Candidate>, listed: seq<Candidate>, n: nat, known: set<string>, blockedKeys: set<string>)
    requires n <= |listed|
  {
    && DistinctKeys(candidates) && (ByHistory(listed) ==> ByHistory(candidates))
    && forall c :: c in candidates <==> c in listed[..n] && c.key !in known && c.key !in blockedKeys
  }

  lemma NothingChosen(listed: seq<Candidate>, known: set<string>, blockedKeys: set<string>)
    ensures Chosen([], listed, 0, known, blockedKeys)
    ensures Keyed(listed[..0], known) == {} && Keyed(listed[..0], blockedKeys - known) == {}
  {}

  lemma ChosenNext(candidates: seq<Candidate>, listed: seq<Candidate>, n: nat, known: set<string>, blockedKeys: set<string>)
    requires n < |listed| && DistinctKeys(listed) && Chosen(candidates, listed, n, known, blockedKeys)
    ensures var key := listed[n].key;
            Chosen(if key in known || key in blockedKeys then candidates else candidates + [listed[n]], listed, n + 1, known, blockedKeys)
  {
    hide Better;
    assert forall c :: c in listed[..n + 1] <==> c in listed[..n] || c == listed[n];
    if listed[n].key !in known && listed[n].key !in blockedKeys {
      assert forall c :: c in candidates ==> c in listed[..n] && c.key != listed[n].key;
      assert ByHistory(listed) ==> forall c :: c in candidates ==> !Better(listed[n], c);
    }
  }

  lemma ChosenAll(candidates: seq<Candidate>, listed: seq<Candidate>, known: set<string>, blockedKeys: set<string>)
    requires Chosen(candidates, listed, |listed|, known, blockedKeys)
    ensures DistinctKeys(candidates) && (ByHistory(listed) ==> ByHistory(candidates))
    ensures forall c :: c in candidates <==> c in listed && c.key !in known && c.key !in blockedKeys
  {
    assert listed[..|listed|] == listed;
  }

  /** Less recently probed. */
  function Staler(recent: string -> int): Less {
    (a: Candidate, b: Candidate) => recent(a.key) < recent(b.key)
  }

  /** Every row received ends in exactly one of the counters or among the candidates before the cap.  Those are
      taken least recently probed first, and among equals by their history: the cap leaves out nobody who comes
      before one it keeps. */
  method Account(rows: seq<Row>, known: set<string>, blockedKeys: set<string>, recent: string -> int, cap: nat)
    returns (counts: Counts, chosen: seq<Candidate>)
    ensures counts.received == |rows| == counts.rejected + counts.existing + counts.blocked + |counts.candidates|
    ensures counts.rejected == |Refused(rows)| && counts.blocked == |Keyed(FirstRows(rows, |rows|), blockedKeys - known)|
    ensures DistinctKeys(counts.candidates)
    ensures forall c :: c in counts.candidates <==> c in FirstRows(rows, |rows|) && c.key !in known && c.key !in blockedKeys
    ensures Ordered(counts.candidates, Staler(recent), Never())
    ensures Timed(Elements(FirstRows(rows, |rows|))) ==> Ordered(counts.candidates, Staler(recent), Better)
    ensures chosen == counts.candidates[..Min(cap, |counts.candidates|)]
  {
    var listed, rejected, repeated := Parse(rows);
    forall c ensures c in listed <==> c in FirstRows(rows, |rows|) {
      assert c in multiset(listed) <==> c in multiset(FirstRows(rows, |rows|));
    }
    assert Elements(listed) == Elements(FirstRows(rows, |rows|));
    assert Keyed(listed, blockedKeys - known) == Keyed(FirstRows(rows, |rows|), blockedKeys - known);
    hide Better, Timed, Ordered, FirstRows, Keys, DistinctKeys, SortStable;
    var candidates, existing, blocked := Filter(listed, known, blockedKeys);
    var sorted := SortStable(candidates, Staler(recent));
    SortKeeps(candidates, Staler(recent));
    SameKeys(candidates, sorted);
    SortedByAge(candidates, recent);
    counts := Counts(|rows|, rejected, repeated + existing, blocked, sorted);
    chosen := if |sorted| > cap then sorted[..cap] else sorted;
    assert sorted[..|sorted|] == sorted;
  }

  lemma SortedByAge(cs: seq<Candidate>, recent: string -> int)
    ensures Ordered(SortStable(cs, Staler(recent)), Staler(recent), Never())
    ensures ByHistory(cs) ==> Ordered(SortStable(cs, Staler(recent)), Staler(recent), Better)
  {
    hide Better, Ordered;
    SortOrders(cs, Elements(cs), Staler(recent), Never());
    if ByHistory(cs) { SortOrders(cs, Elements(cs), Staler(recent), Better); }
  }

  function Refused(rows: seq<Row>): seq<Row> {
    if rows == [] then []
    else Refused(rows[..|rows| - 1]) + (if rows[|rows| - 1].Bad? then [rows[|rows| - 1]] else [])
  }

  // ---- dispatching -----------------------------------------------------------------------------

  /** `busy` are the candidates being probed, `ready` the results waiting in the channel, `consumed` the
      results taken; `signal` says the dispatcher still listens for the cancellation.  The dispatcher is at the
      top of its loop, or goes round once more, or selects, with or without a candidate to offer. */
  datatype Place = Top | Round | Selecting(offer: bool)

  datatype State = State(next: nat, busy: seq<nat>, ready: seq<nat>, consumed: seq<nat>, accepted: nat, cancelled: bool,
                         signal: bool, place: Place)

  datatype Setup = Setup(total: nat, need: nat, workers: nat)

  const START := State(0, [], [], [], 0, false, true, Top)

  function Inflight(s: State): nat { |s.busy| + |s.ready| }

  predicate Sending(c: Setup, s: State) { s.next < c.total && s.accepted < c.need && !s.cancelled }

  predicate Running(c: Setup, s: State) { Sending(c, s) || Inflight(s) > 0 }

  /** At the top the loop is over, or the dispatcher goes round, and settles what it offers. */
  predicate Finished(c: Setup, s: State) { s.place == Top && !Running(c, s) }

  datatype Step = Check | Look | Send | Finish(i: nat) | Receive(ok: bool) | Cancel | Notice

  /** A hand-over needs an idle worker, a worker's result a free place in the channel.  The cancellation is read
      in the loop's condition, and again when the dispatcher looks what to offer: one that comes later does not
      withdraw it. */
  predicate Enabled(c: Setup, s: State, step: Step) {
    match step
    case Check => s.place == Top && Running(c, s)
    case Look => s.place == Round
    case Send => s.place == Selecting(true) && |s.busy| < c.workers
    case Finish(i) => i < |s.busy| && |s.ready| < c.workers
    case Receive(_) => s.place.Selecting? && s.ready != []
    case Cancel => !s.cancelled
    case Notice => s.place.Selecting? && s.cancelled && s.signal
  }

  function Next(c: Setup, s: State, step: Step): State
    requires Enabled(c, s, step)
  {
    match step
    case Check => s.(place := Round)
    case Look => s.(place := Selecting(Sending(c, s) && Inflight(s) < c.workers))
    case Send => s.(next := s.next + 1, busy := s.busy + [s.next], place := Top)
    case Finish(i) => s.(busy := s.busy[..i] + s.busy[i + 1..], ready := s.ready + [s.busy[i]])
    case Receive(ok) =>
      s.(ready := s.ready[1..], consumed := s.consumed + [s.ready[0]], accepted := if ok then s.accepted + 1 else s.accepted,
         place := Top)
    case Cancel => s.(cancelled := true)
    case Notice => s.(signal := false, place := Top)
  }

  function Sum(s: State): multiset<nat> { multiset(s.busy) + multiset(s.ready) + multiset(s.consumed) }

  /** The candidates sent so far, each once. */
  function Sent(n: nat): multiset<nat> { if n == 0 then multiset{} else Sent(n - 1) + multiset{n - 1} }

  predicate Inv(c: Setup, s: State) {
    && s.next <= c.total && Inflight(s) <= c.workers && Sum(s) == Sent(s.next)
    && s.accepted <= |s.consumed| && (c.need > 0 ==> s.accepted + Inflight(s) <= c.need - 1 + c.workers)
    && (c.need == 0 ==> s.next == 0 && s.accepted == 0 && Inflight(s) == 0)
    && (!s.signal ==> s.cancelled)
    && (match s.place
        case Top => true
        case Round => Inflight(s) > 0 || (s.next < c.total && s.accepted < c.need && s.signal)
        case Selecting(offer) =>
          if offer then s.next < c.total && s.accepted < c.need && Inflight(s) < c.workers
          else Inflight(s) > 0 || (s.cancelled && s.signal))
  }

  lemma SentOnce(s: State)
    ensures Sum(s.(next := s.next + 1, busy := s.busy + [s.next], place := Top)) == Sum(s) + multiset{s.next}
  {}

  lemma Unsummed(s: State, t: State)
    requires t.busy == s.busy && t.ready == s.ready && t.consumed == s.consumed
    ensures Sum(t) == Sum(s)
  {}

  lemma Moved(s: State, i: nat)
    requires i < |s.busy|
    ensures Sum(s.(busy := s.busy[..i] + s.busy[i + 1..], ready := s.ready + [s.busy[i]])) == Sum(s)
  {
    assert s.busy == s.busy[..i] + [s.busy[i]] + s.busy[i + 1..];
  }

  lemma Taken(s: State, accepted: nat)
    requires s.ready != []
    ensures Sum(s.(ready := s.ready[1..], consumed := s.consumed + [s.ready[0]], accepted := accepted, place := Top)) == Sum(s)
  {
    assert s.ready == [s.ready[0]] + s.ready[1..];
  }

  lemma SendKeeps(c: Setup, s: State)
    requires Inv(c, s) && Enabled(c, s, Send)
    ensures Inv(c, Next(c, s, Send))
  {
    SentOnce(s);
    hide Sum;
  }

  lemma FinishKeeps(c: Setup, s: State, i: nat)
    requires Inv(c, s) && Enabled(c, s, Finish(i))
    ensures Inv(c, Next(c, s, Finish(i)))
  {
    Moved(s, i);
    hide Sum, Sent;
  }

  lemma ReceiveKeeps(c: Setup, s: State, ok: bool)
    requires Inv(c, s) && Enabled(c, s, Receive(ok))
    ensures Inv(c, Next(c, s, Receive(ok)))
  {
    Taken(s, if ok then s.accepted + 1 else s.accepted);
    hide Sum, Sent;
  }

  lemma StepKeeps(c: Setup, s: State, step: Step)
    requires Inv(c, s) && Enabled(c, s, step) && c.workers > 0
    ensures Inv(c, Next(c, s, step))
  {
    hide Sum, Sent;
    match step
    case Check => Unsummed(s, Next(c, s, Check));
    case Look => Unsummed(s, Next(c, s, Look));
    case Send => SendKeeps(c, s);
    case Finish(i) => FinishKeeps(c, s, i);
    case Receive(ok) => ReceiveKeeps(c, s, ok);
    case Cancel => Unsummed(s, s.(cancelled := true));
    case Notice => Unsummed(s, s.(signal := false, place := Top));
  }

  /** Three steps are left for each candidate not sent, two for each being probed, one for each result, one for
      the cancellation and one for its notice; and the dispatcher checks and looks before each of them. */
  function Measure(c: Setup, s: State): nat
    requires s.next <= c.total
  {
    3 * (3 * (c.total - s.next) + 2 * |s.busy| + |s.ready| + (if s.cancelled then 0 else 1) + (if s.signal then 1 else 0))
      + (if s.place == Top then 2 else if s.place == Round then 1 else 0)
  }

  lemma MeasureFalls(c: Setup, s: State, step: Step)
    requires Inv(c, s) && Enabled(c, s, step)
    ensures Next(c, s, step).next <= c.total && Measure(c, Next(c, s, step)) < Measure(c, s)
  {}

  /** As long as the loop runs, the dispatcher or a worker can do something, and a worker that is done
      never waits for a place. */
  lemma NoDeadlock(c: Setup, s: State)
    requires Inv(c, s) && !Finished(c, s)
    ensures s.place == Top ==> Enabled(c, s, Check)
    ensures s.place == Round ==> Enabled(c, s, Look)
    ensures s.place.Selecting? && s.ready != [] ==> Enabled(c, s, Receive(true))
    ensures s.busy != [] ==> Enabled(c, s, Finish(0))
    ensures s.place.Selecting? && s.ready == [] && s.busy == [] ==>
              if s.place.offer then Enabled(c, s, Send) else Enabled(c, s, Notice)
  {}

  /** The dispatcher offers nothing only if there is nothing left to offer, enough have been accepted, it was told to
      stop, or the whole crew is at work. */
  lemma CrewIsUsed(c: Setup, s: State)
    requires Inv(c, s) && s.place == Round
    ensures Next(c, s, Look).place == Selecting(false) <==>
              s.next == c.total || s.accepted >= c.need || s.cancelled || Inflight(s) == c.workers
  {
    hide Sum, Sent;
  }

  /** A finished loop has consumed the result of every candidate it sent, each exactly once, and accepted
      fewer than `need` plus the size of the crew. */
  lemma FinishedLoop(c: Setup, s: State)
    requires Inv(c, s) && Finished(c, s)
    ensures multiset(s.consumed) == Sent(s.next) && |s.consumed| == s.next
    ensures s.accepted <= s.next && (c.need > 0 ==> s.accepted <= c.need - 1 + c.workers) && (c.need == 0 ==> s.accepted == 0)
    ensures !s.cancelled && s.accepted < c.need ==> s.next == c.total
  {
    assert s.busy == [] && s.ready == [];
    assert Sum(s) == multiset(s.consumed);
    SentSize(s.next);
    assert |multiset(s.consumed)| == |s.consumed|;
  }

  lemma {:induction false} SentSize(n: nat)
    ensures |Sent(n)| == n
  {
    if n > 0 { SentSize(n - 1); }
  }

  lemma Counted(c: Setup, s: State, step: Step)
    requires Enabled(c, s, step)
    ensures var t := Next(c, s, step);
            && |t.consumed| == |s.consumed| + (if step.Receive? then 1 else 0)
            && t.accepted == s.accepted + (if step.Receive? && step.ok then 1 else 0)
  {}

  /** How many of the candidates whose results were taken pass. */
  function Passing(consumed: seq<nat>, passes: nat -> bool): nat {
    if consumed == [] then 0
    else Passing(consumed[..|consumed| - 1], passes) + (if passes(consumed[|consumed| - 1]) then 1 else 0)
  }

  lemma PassingMore(c: Setup, s: State, step: Step, passes: nat -> bool)
    requires Enabled(c, s, step) && (step.Receive? && s.ready != [] ==> step.ok == passes(s.ready[0]))
    requires s.accepted == Passing(s.consumed, passes)
    ensures Next(c, s, step).accepted == Passing(Next(c, s, step).consumed, passes)
  {
    if step.Receive? { assert (s.consumed + [s.ready[0]])[..|s.consumed|] == s.consumed; }
  }

  /** The loop under any schedule: `choose(k)` proposes what happens `k`-th, and what cannot happen then is
      replaced by something that can; `passes` tells which candidates a probe finds good.  It ends, having consumed every
      result it asked for, and accepted exactly the good ones among them. */
  method Dispatch(c: Setup, choose: nat -> Step, passes: nat -> bool) returns (s: State, passed: nat, probed: nat)
    requires c.workers > 0 && c.need > 0
    ensures Finished(c, s) && multiset(s.consumed) == Sent(s.next) && s.next <= c.total
    ensures probed == s.next && passed == s.accepted <= c.need - 1 + c.workers
    ensures !s.cancelled && passed < c.need ==> probed == c.total
    ensures passed == Passing(s.consumed, passes)
  {
    assert Inv(c, START);
    assert Passing(START.consumed, passes) == 0;
    hide Inv, Enabled, Running, Finished, Measure, Passing;
    s := START;
    passed, probed := 0, 0;
    var k := 0;
    while !Finished(c, s)
      invariant Inv(c, s) && s.next <= c.total && passed == s.accepted == Passing(s.consumed, passes) && probed == |s.consumed|
      decreases Measure(c, s)
    {
      NoDeadlock(c, s);
      var step := choose(k);
      k := k + 1;
      if step.Receive? && s.ready != [] { step := Receive(passes(s.ready[0])); }
      if !Enabled(c, s, step) {
        step := if s.place == Top then Check else if s.place == Round then Look else if s.ready != [] then Receive(passes(s.ready[0]))
                else if s.busy != [] then Finish(0) else if s.place.offer then Send else Notice;
      }
      StepKeeps(c, s, step);
      MeasureFalls(c, s, step);
      Counted(c, s, step);
      PassingMore(c, s, step, passes);
      if step.Receive? {
        probed := probed + 1;
        if step.ok { passed := passed + 1; }
      }
      s := Next(c, s, step);
    }
    FinishedLoop(c, s);
  }
}
