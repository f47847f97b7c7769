/** The policy precedence resolver: who wins, and what a tie is worth. */
module Policy {
  import opened Basics

  const HARD: int := 10
  const OPERATOR: int := 20
  const MANDATE: int := 30
  const ADAPTIVE: int := 40
  const DEFAULT: int := 50

  const BLUEPRINT: Value := Text("blueprint")
  const ALLOCATION_CORE: string := "allocation.core"
  const ALLOCATION_LAB: string := "allocation.lab"
  const TRACK_LOCKED: string := "track_locked"

  const HARD_RULES: set<string> :=
    {"production_deploy", "merge_main", "publish_public", "spend_money", "destructive_delete", "grant_access"}

  const DEFAULTS: map<string, Value> := map[
    ALLOCATION_CORE := Num(70.0),
    ALLOCATION_LAB := Num(30.0),
    "followups.allowed" := Bool(false),
    "style" := BLUEPRINT,
    "review.policy" := Text("hermes_report"),
    TRACK_LOCKED := Bool(false),
    "max_followups_per_day" := Num(0.0)]

  datatype Scope = Company | Track | Project | Elsewhere

  /** A JSON value, as far as the resolver tells them apart. */
  datatype Value = Bool(b: bool) | Num(n: real) | Items(items: seq<string>) | Text(text: string) | Null

  datatype Candidate = Candidate(
    value: Value,
    priority: int,
    scope: Scope,
    createdAt: Option<Time>,   // absent for what is built in, which sorts before any date
    rowId: Option<string>)

  function Rank(scope: Scope): nat {
    match scope
    case Project => 3
    case Track => 2
    case Company => 1
    case Elsewhere => 0
  }

  predicate Numeric(v: Value) { v.Bool? || v.Num? }

  function AsNum(v: Value): real
    requires Numeric(v)
  {
    match v
    case Bool(b) => if b then 1.0 else 0.0
    case Num(n) => n
  }

  function KeepIn(xs: seq<string>, ys: seq<string>): seq<string> {
    if xs == [] then [] else KeepIn(xs[..|xs| - 1], ys) + if xs[|xs| - 1] in ys then [xs[|xs| - 1]] else []
  }

  /** The value that grants less. */
  function Restrictive(left: Value, right: Value): Value {
    if left.Bool? && right.Bool? then Bool(left.b && right.b)
    else if Numeric(left) && Numeric(right) then (if AsNum(right) < AsNum(left) then right else left)
    else if left.Items? && right.Items? then Items(KeepIn(left.items, right.items))
    else if left == BLUEPRINT || right == BLUEPRINT then BLUEPRINT
    else left
  }

  function Filter(p: Candidate -> bool, cs: seq<Candidate>): seq<Candidate> {
    if cs == [] then []
    else Filter(p, cs[..|cs| - 1]) + if p(cs[|cs| - 1]) then [cs[|cs| - 1]] else []
  }

  predicate Newer(a: Option<Time>, b: Option<Time>) {
    a.Some? && (b.None? || a.value > b.value)
  }

  /** Strictly better: smaller priority number, then wider rank, then newer. */
  predicate Beats(a: Candidate, b: Candidate) {
    || a.priority < b.priority
    || (a.priority == b.priority && Rank(a.scope) > Rank(b.scope))
    || (a.priority == b.priority && Rank(a.scope) == Rank(b.scope) && Newer(a.createdAt, b.createdAt))
  }

  predicate Unbeaten(c: Candidate, cs: seq<Candidate>) {
    forall d :: d in cs ==> !Beats(d, c)
  }

  /** The best class: the candidates that nothing beats, in the order given. */
  function TopClass(cs: seq<Candidate>): seq<Candidate> {
    Filter(c => Unbeaten(c, cs), cs)
  }

  /** The most restrictive value of a class, folded from the left. */
  function Meet(tied: seq<Candidate>): Value
    requires tied != []
  {
    if |tied| == 1 then tied[0].value
    else Restrictive(Meet(tied[..|tied| - 1]), tied[|tied| - 1].value)
  }

  function Winner(cs: seq<Candidate>): Candidate
    requires TopClass(cs) != []
  {
    TopClass(cs)[0].(value := Meet(TopClass(cs)))
  }

  /******* Filtering *******/

  lemma {:induction false} FilterMembers(p: Candidate -> bool, cs: seq<Candidate>)
    ensures forall c :: c in Filter(p, cs) <==> c in cs && p(c)
  {
    if cs != [] {
      FilterMembers(p, cs[..|cs| - 1]);
      assert cs == cs[..|cs| - 1] + [cs[|cs| - 1]];
    }
  }

  lemma {:induction false} FilterAgree(p: Candidate -> bool, q: Candidate -> bool, cs: seq<Candidate>)
    requires forall c :: c in cs ==> p(c) == q(c)
    ensures Filter(p, cs) == Filter(q, cs)
  {
    if cs != [] { FilterAgree(p, q, cs[..|cs| - 1]); }
  }

  lemma {:induction false} FilterTwice(p: Candidate -> bool, q: Candidate -> bool, cs: seq<Candidate>)
    ensures Filter(q, Filter(p, cs)) == Filter(c => p(c) && q(c), cs)
  {
    if cs != [] {
      FilterTwice(p, q, cs[..|cs| - 1]);
      var front, last := Filter(p, cs[..|cs| - 1]), cs[|cs| - 1];
      if p(last) { assert (front + [last])[..|front|] == front; }
      else { assert Filter(p, cs) == front; }
    }
  }

  lemma {:induction false} FilterConcat(p: Candidate -> bool, xs: seq<Candidate>, ys: seq<Candidate>)
    ensures Filter(p, xs + ys) == Filter(p, xs) + Filter(p, ys)
  {
    if ys == [] {
      assert xs + ys == xs;
    } else {
      FilterConcat(p, xs, ys[..|ys| - 1]);
      assert (xs + ys)[..|xs + ys| - 1] == xs + ys[..|ys| - 1];
    }
  }

  lemma {:induction false} FilterCounts(p: Candidate -> bool, cs: seq<Candidate>, c: Candidate)
    ensures multiset(Filter(p, cs))[c] == if p(c) then multiset(cs)[c] else 0
  {
    if cs != [] {
      FilterCounts(p, cs[..|cs| - 1], c);
      assert cs == cs[..|cs| - 1] + [cs[|cs| - 1]];
    }
  }

  lemma {:induction false} SomeUnbeaten(cs: seq<Candidate>)
    requires cs != []
    ensures exists c :: c in cs && Unbeaten(c, cs)
  {
    var front, last := cs[..|cs| - 1], cs[|cs| - 1];
    assert cs == front + [last];
    if front == [] {
      assert Unbeaten(last, cs);
    } else {
      SomeUnbeaten(front);
      var best :| best in front && Unbeaten(best, front);
      if Beats(last, best) {
        assert Unbeaten(last, cs);
      } else {
        assert Unbeaten(best, cs);
      }
    }
  }

  lemma TopClassFacts(cs: seq<Candidate>)
    requires cs != []
    ensures TopClass(cs) != []
    ensures forall c :: c in TopClass(cs) <==> c in cs && Unbeaten(c, cs)
  {
    FilterMembers(c => Unbeaten(c, cs), cs);
    SomeUnbeaten(cs);
    var c :| c in cs && Unbeaten(c, cs);
    assert c in TopClass(cs);
  }

  /******* Picking *******/

  function BestPriority(cs: seq<Candidate>): int
    requires cs != []
  {
    if |cs| == 1 then cs[0].priority else Min(BestPriority(cs[..|cs| - 1]), cs[|cs| - 1].priority)
  }

  function BestRank(cs: seq<Candidate>): int
    requires cs != []
  {
    if |cs| == 1 then Rank(cs[0].scope) else Max(BestRank(cs[..|cs| - 1]), Rank(cs[|cs| - 1].scope))
  }

  function Newest(cs: seq<Candidate>): Option<Time>
    requires cs != []
  {
    if |cs| == 1 then cs[0].createdAt
    else
      var rest := Newest(cs[..|cs| - 1]);
      if Newer(cs[|cs| - 1].createdAt, rest) then cs[|cs| - 1].createdAt else rest
  }

  lemma {:induction false} Extremes(cs: seq<Candidate>)
    requires cs != []
    ensures forall c :: c in cs ==>
              BestPriority(cs) <= c.priority && Rank(c.scope) <= BestRank(cs) && !Newer(c.createdAt, Newest(cs))
    ensures exists c :: c in cs && c.priority == BestPriority(cs)
    ensures exists c :: c in cs && Rank(c.scope) == BestRank(cs)
    ensures exists c :: c in cs && c.createdAt == Newest(cs)
  {
    var front, last := cs[..|cs| - 1], cs[|cs| - 1];
    assert cs == front + [last];
    if front != [] {
      Extremes(front);
      var p :| p in front && p.priority == BestPriority(front);
      var r :| r in front && Rank(r.scope) == BestRank(front);
      var n :| n in front && n.createdAt == Newest(front);
      assert p in cs && r in cs && n in cs && last in cs;
    } else {
      assert last in cs;
    }
  }

  function SamePriority(cs: seq<Candidate>): seq<Candidate>
    requires cs != []
  {
    var best := BestPriority(cs);
    Filter((c: Candidate) => c.priority == best, cs)
  }

  function SameRank(cs: seq<Candidate>): seq<Candidate>
    requires cs != []
  {
    var best := BestRank(cs);
    Filter((c: Candidate) => Rank(c.scope) == best, cs)
  }

  function SameAge(cs: seq<Candidate>): seq<Candidate>
    requires cs != []
  {
    var newest := Newest(cs);
    Filter((c: Candidate) => c.createdAt == newest, cs)
  }

  lemma StagesNonempty(cs: seq<Candidate>)
    requires cs != []
    ensures SamePriority(cs) != [] && SameRank(cs) != [] && SameAge(cs) != []
    ensures forall d :: d in SamePriority(cs) <==> d in cs && d.priority == BestPriority(cs)
    ensures forall d :: d in SameRank(cs) <==> d in cs && Rank(d.scope) == BestRank(cs)
  {
    Extremes(cs);
    var p, r, n := BestPriority(cs), BestRank(cs), Newest(cs);
    FilterMembers((c: Candidate) => c.priority == p, cs);
    FilterMembers((c: Candidate) => Rank(c.scope) == r, cs);
    FilterMembers((c: Candidate) => c.createdAt == n, cs);
    var x :| x in cs && x.priority == p;
    var y :| y in cs && Rank(y.scope) == r;
    var z :| z in cs && z.createdAt == n;
    assert x in SamePriority(cs) && y in SameRank(cs) && z in SameAge(cs);
  }

  /** The three successive filters of the resolver keep exactly the best class. */
  lemma StagesKeepTheBestClass(cs: seq<Candidate>)
    requires cs != []
    ensures SamePriority(cs) != [] && SameRank(SamePriority(cs)) != []
    ensures SameAge(SameRank(SamePriority(cs))) == TopClass(cs)
  {
    var s1 := SamePriority(cs);
    StagesNonempty(cs);
    var s2 := SameRank(s1);
    StagesNonempty(s1);
    var bestPriority, bestRank, newest := BestPriority(cs), BestRank(s1), Newest(s2);
    var p := (c: Candidate) => c.priority == bestPriority;
    var q := (c: Candidate) => Rank(c.scope) == bestRank;
    var o := (c: Candidate) => c.createdAt == newest;
    var pq := (c: Candidate) => p(c) && q(c);
    var pqo := (c: Candidate) => pq(c) && o(c);
    FilterTwice(p, q, cs);
    FilterAgree((c: Candidate) => p(c) && q(c), pq, cs);
    FilterTwice(pq, o, cs);
    FilterAgree((c: Candidate) => pq(c) && o(c), pqo, cs);
    assert SameAge(s2) == Filter(pqo, cs);
    var top := (c: Candidate) => Unbeaten(c, cs);
    forall c | c in cs ensures pqo(c) == top(c) {
      StageMember(cs, s1, s2, c);
    }
    FilterAgree(pqo, top, cs);
    FilterAgree(top, (c: Candidate) => Unbeaten(c, cs), cs);
  }

  lemma StageMember(cs: seq<Candidate>, s1: seq<Candidate>, s2: seq<Candidate>, c: Candidate)
    requires c in cs && s1 != [] && s2 != []
    requires forall d :: d in s1 <==> d in cs && d.priority == BestPriority(cs)
    requires forall d :: d in s2 <==> d in s1 && Rank(d.scope) == BestRank(s1)
    ensures (c.priority == BestPriority(cs) && Rank(c.scope) == BestRank(s1) && c.createdAt == Newest(s2))
            == Unbeaten(c, cs)
  {
    Extremes(cs);
    Extremes(s1);
    Extremes(s2);
    var x :| x in s1 && Rank(x.scope) == BestRank(s1);
    var z :| z in s2 && z.createdAt == Newest(s2);
    if Unbeaten(c, cs) {
      assert !Beats(x, c) && !Beats(z, c);
    }
  }

  /** The resolver's choice among the candidates for one key. */
  method Pick(cs: seq<Candidate>) returns (winner: Candidate)
    requires cs != []
    ensures TopClass(cs) != [] && winner == Winner(cs)
  {
    hide TopClass, SamePriority, SameRank, SameAge, Restrictive;
    StagesKeepTheBestClass(cs);
    TopClassFacts(cs);
    var same := SamePriority(cs);
    same := SameRank(same);
    same := SameAge(same);
    winner := same[0];
    var i := 1;
    while i < |same|
      invariant 1 <= i <= |same|
      invariant winner == same[0].(value := Meet(same[..i]))
    {
      assert same[..i + 1][..i] == same[..i];
      winner := winner.(value := Restrictive(winner.value, same[i].value));
      i := i + 1;
    }
    assert same[..i] == same;
  }

  lemma UnbeatenWithout(xs: seq<Candidate>, d: Candidate, ys: seq<Candidate>, c: Candidate, e: Candidate)
    requires c in xs + ys && Beats(c, d)
    ensures Unbeaten(e, xs + [d] + ys) == Unbeaten(e, xs + ys)
    ensures !Unbeaten(d, xs + [d] + ys)
  {
    assert forall f :: f in xs + [d] + ys <==> f in xs + ys || f == d;
    assert Beats(d, e) ==> Beats(c, e);
  }

  lemma FilterSkips(p: Candidate -> bool, xs: seq<Candidate>, d: Candidate, ys: seq<Candidate>)
    requires !p(d)
    ensures Filter(p, xs + [d] + ys) == Filter(p, xs + ys)
  {
    FilterConcat(p, xs + [d], ys);
    FilterConcat(p, xs, ys);
    assert (xs + [d])[..|xs|] == xs;
  }

  /** Adding or removing a candidate that another one beats changes nothing. */
  lemma DominatedChangesNothing(xs: seq<Candidate>, d: Candidate, ys: seq<Candidate>, c: Candidate)
    requires c in xs + ys && Beats(c, d)
    ensures TopClass(xs + ys) != [] && TopClass(xs + [d] + ys) != []
    ensures Winner(xs + [d] + ys) == Winner(xs + ys)
  {
    var with, without := xs + [d] + ys, xs + ys;
    var p, q := (e: Candidate) => Unbeaten(e, with), (e: Candidate) => Unbeaten(e, without);
    forall e ensures p(e) == q(e) {
      UnbeatenWithout(xs, d, ys, c, e);
    }
    UnbeatenWithout(xs, d, ys, c, d);
    FilterSkips(p, xs, d, ys);
    FilterAgree(p, q, without);
    assert TopClass(with) == TopClass(without) by {
      FilterAgree(p, (e: Candidate) => Unbeaten(e, with), with);
      FilterAgree(q, (e: Candidate) => Unbeaten(e, without), without);
    }
    TopClassFacts(without);
  }

  /** A candidate that beats everything different from it decides alone. */
  lemma SoleBestWins(cs: seq<Candidate>, best: Candidate)
    requires best in cs && forall c :: c in cs && c != best ==> Beats(best, c)
    requires Restrictive(best.value, best.value) == best.value
    ensures TopClass(cs) != [] && Winner(cs) == best
  {
    TopClassFacts(cs);
    forall c | c in TopClass(cs) ensures c == best {
      assert best in cs;
    }
    MeetOfEquals(TopClass(cs), best.value);
  }

  lemma {:induction false} MeetOfEquals(tied: seq<Candidate>, v: Value)
    requires tied != [] && Restrictive(v, v) == v
    requires forall c :: c in tied ==> c.value == v
    ensures Meet(tied) == v
  {
    if |tied| > 1 { MeetOfEquals(tied[..|tied| - 1], v); }
  }

  /******* What a tie is worth *******/

  lemma {:induction false} MeetOfBools(tied: seq<Candidate>)
    requires tied != [] && forall c :: c in tied ==> c.value.Bool?
    ensures Meet(tied) == Bool(forall c :: c in tied ==> c.value.b)
  {
    if |tied| > 1 {
      var front, last := tied[..|tied| - 1], tied[|tied| - 1];
      MeetOfBools(front);
      assert tied == front + [last];
    } else {
      assert tied == [tied[0]];
    }
  }

  lemma {:induction false} MeetOfNums(tied: seq<Candidate>)
    requires tied != [] && forall c :: c in tied ==> c.value.Num?
    ensures Meet(tied).Num?
    ensures exists c :: c in tied && c.value == Meet(tied)
    ensures forall c :: c in tied ==> Meet(tied).n <= c.value.n
  {
    if |tied| > 1 {
      var front, last := tied[..|tied| - 1], tied[|tied| - 1];
      MeetOfNums(front);
      assert tied == front + [last];
      var c :| c in front && c.value == Meet(front);
      assert c in tied && last in tied;
    } else {
      assert tied == [tied[0]] && tied[0] in tied;
    }
  }

  lemma {:induction false} MeetOfTexts(tied: seq<Candidate>)
    requires tied != [] && forall c :: c in tied ==> c.value.Text?
    ensures Meet(tied) == if exists c :: c in tied && c.value == BLUEPRINT then BLUEPRINT else tied[0].value
  {
    if |tied| > 1 {
      var front, last := tied[..|tied| - 1], tied[|tied| - 1];
      MeetOfTexts(front);
      assert tied == front + [last];
    } else {
      assert tied == [tied[0]];
    }
  }

  lemma {:induction false} KeepInMembers(xs: seq<string>, ys: seq<string>)
    ensures forall x :: x in KeepIn(xs, ys) <==> x in xs && x in ys
  {
    if xs != [] {
      KeepInMembers(xs[..|xs| - 1], ys);
      assert xs == xs[..|xs| - 1] + [xs[|xs| - 1]];
    }
  }

  /** A tie of lists keeps exactly what every list has. */
  lemma {:induction false} MeetOfItems(tied: seq<Candidate>)
    requires tied != [] && forall c :: c in tied ==> c.value.Items?
    ensures Meet(tied).Items?
    ensures forall x :: x in Meet(tied).items <==> forall c :: c in tied ==> x in c.value.items
  {
    if |tied| > 1 {
      var front, last := tied[..|tied| - 1], tied[|tied| - 1];
      MeetOfItems(front);
      KeepInMembers(Meet(front).items, last.value.items);
      assert tied == front + [last];
    } else {
      assert tied == [tied[0]];
    }
  }

  /** In a tie of flags and numbers a flag counts one or nothing, and the least wins. */
  lemma {:induction false} MeetOfFlagsAndNums(tied: seq<Candidate>)
    requires tied != [] && forall c :: c in tied ==> c.value.Bool? || c.value.Num?
    ensures Numeric(Meet(tied)) && exists c :: c in tied && c.value == Meet(tied)
    ensures forall c :: c in tied ==>
              var least := Meet(tied);
              && (least.Num? && c.value.Num? ==> least.n <= c.value.n)
              && (least.Num? && c.value.Bool? ==> least.n <= if c.value.b then 1.0 else 0.0)
              && (least.Bool? && c.value.Num? ==> (if least.b then 1.0 else 0.0) <= c.value.n)
              && (least.Bool? && c.value.Bool? ==> (least.b ==> c.value.b))
  {
    if |tied| > 1 {
      var front, last := tied[..|tied| - 1], tied[|tied| - 1];
      MeetOfFlagsAndNums(front);
      assert tied == front + [last];
      var c :| c in front && c.value == Meet(front);
      assert c in tied && last in tied;
    } else {
      assert tied == [tied[0]] && tied[0] in tied;
    }
  }

  /** What a flag or a number is worth in a comparison. */
  ghost function Worth(v: Value): real {
    match v
    case Bool(b) => if b then 1.0 else 0.0
    case Num(n) => n
    case _ => 0.0
  }

  lemma TheLesserStays(x: Value, y: Value)
    requires Numeric(x) && Numeric(y)
    ensures Restrictive(x, y) == x || (Restrictive(x, y) == y && Worth(y) < Worth(x))
    ensures Worth(Restrictive(x, y)) <= Worth(x) && Worth(Restrictive(x, y)) <= Worth(y)
  {
  }

  /** Of several that are worth the least, it is the first, a flag or a number as it stands. */
  lemma {:induction false} FirstOfTheLeastStays(tied: seq<Candidate>)
    requires tied != [] && forall c :: c in tied ==> c.value.Bool? || c.value.Num?
    ensures exists k :: 0 <= k < |tied| && tied[k].value == Meet(tied)
                        && forall j :: 0 <= j < k ==> Worth(tied[j].value) > Worth(Meet(tied))
    ensures forall c :: c in tied ==> Worth(Meet(tied)) <= Worth(c.value)
  {
    if |tied| > 1 {
      var front, last := tied[..|tied| - 1], tied[|tied| - 1];
      FirstOfTheLeastStays(front);
      assert tied == front + [last] && Meet(tied) == Restrictive(Meet(front), last.value);
      var k :| 0 <= k < |front| && front[k].value == Meet(front)
               && forall j :: 0 <= j < k ==> Worth(front[j].value) > Worth(Meet(front));
      assert front[k] in front && last in tied;
      TheLesserStays(Meet(front), last.value);
      hide Meet, Worth, Restrictive;
      if Meet(tied) == Meet(front) {
        assert tied[k].value == Meet(tied);
      } else {
        assert tied[|front|].value == Meet(tied);
        forall j | 0 <= j < |front| ensures Worth(tied[j].value) > Worth(Meet(tied)) { assert front[j] in front; }
      }
    } else {
      assert tied == [tied[0]] && tied[0].value == Meet(tied);
    }
  }

  /** Values that cannot be compared: a blueprint if there is one, else the one that came first. */
  lemma MeetOfUnlikes(first: Candidate, second: Candidate)
    requires !(Numeric(first.value) && Numeric(second.value)) && !(first.value.Items? && second.value.Items?)
    ensures Meet([first, second])
            == if Text("blueprint") in {first.value, second.value} then Text("blueprint") else first.value
  {
    assert [first, second][..1] == [first];
  }

  lemma PermutedClass(xs: seq<Candidate>, ys: seq<Candidate>)
    requires xs != [] && multiset(xs) == multiset(ys)
    ensures ys != [] && multiset(TopClass(xs)) == multiset(TopClass(ys))
    ensures forall c :: c in TopClass(xs) <==> c in TopClass(ys)
  {
    assert xs[0] in multiset(ys);
    assert forall c :: c in xs <==> c in multiset(xs);
    assert forall c :: c in ys <==> c in multiset(ys);
    forall c ensures multiset(TopClass(xs))[c] == multiset(TopClass(ys))[c] {
      FilterCounts(e => Unbeaten(e, xs), xs, c);
      FilterCounts(e => Unbeaten(e, ys), ys, c);
      assert Unbeaten(c, xs) == Unbeaten(c, ys);
    }
    assert forall c :: c in TopClass(xs) <==> c in multiset(TopClass(xs));
    assert forall c :: c in TopClass(ys) <==> c in multiset(TopClass(ys));
  }

  predicate IsStyle(v: Value) { v == BLUEPRINT || v == Text("exploration") }

  /** For flags, numbers and styles the rows' order never matters. */
  lemma OrderNeverMatters(xs: seq<Candidate>, ys: seq<Candidate>)
    requires xs != [] && multiset(xs) == multiset(ys)
    requires || (forall c :: c in TopClass(xs) ==> c.value.Bool?)
             || (forall c :: c in TopClass(xs) ==> c.value.Num?)
             || (forall c :: c in TopClass(xs) ==> IsStyle(c.value))
    ensures TopClass(xs) != [] && TopClass(ys) != [] && Winner(xs).value == Winner(ys).value
  {
    PermutedClass(xs, ys);
    TopClassFacts(xs);
    TopClassFacts(ys);
    var a, b := TopClass(xs), TopClass(ys);
    assert a[0] in a && b[0] in b;
    if forall c :: c in a ==> c.value.Bool? {
      MeetOfBools(a);
      MeetOfBools(b);
    } else if forall c :: c in a ==> c.value.Num? {
      MeetOfNums(a);
      MeetOfNums(b);
    } else {
      MeetOfTexts(a);
      MeetOfTexts(b);
    }
  }

  ghost predicate HasBlueprint(tied: seq<Candidate>) {
    exists c :: c in tied && c.value == BLUEPRINT
  }

  lemma SettledTexts(tied: seq<Candidate>, other: seq<Candidate>)
    requires tied != [] && other != [] && multiset(other) == multiset(tied)
    requires forall c :: c in tied ==> c.value.Text?
    requires HasBlueprint(tied) || forall c :: c in tied ==> c.value == tied[0].value
    ensures Meet(other) == Meet(tied)
  {
    assert forall c :: c in tied <==> c in multiset(tied);
    assert forall c :: c in other <==> c in multiset(other);
    MeetOfTexts(tied);
    MeetOfTexts(other);
    assert other[0] in other && tied[0] in tied;
  }

  lemma UnsettledTexts(tied: seq<Candidate>) returns (other: seq<Candidate>)
    requires tied != [] && forall c :: c in tied ==> c.value.Text?
    requires !HasBlueprint(tied) && exists c :: c in tied && c.value != tied[0].value
    ensures other != [] && multiset(other) == multiset(tied) && Meet(other) != Meet(tied)
  {
    var k :| 0 <= k < |tied| && tied[k].value != tied[0].value;
    other := [tied[k]] + tied[..k] + tied[k + 1..];
    assert tied == tied[..k] + [tied[k]] + tied[k + 1..];
    assert forall c :: c in other ==> c in multiset(other);
    assert forall c :: c in tied <==> c in multiset(tied);
    MeetOfTexts(tied);
    MeetOfTexts(other);
  }

  /**
   For other texts the tie-break is not restrictive but first-come: a tied class has one value
   whatever its order exactly when it holds a blueprint or its values are all the same.
   */
  lemma TextTiesDependOnOrder(tied: seq<Candidate>)
    requires tied != [] && forall c :: c in tied ==> c.value.Text?
    ensures (forall other :: multiset(other) == multiset(tied) && other != [] ==> Meet(other) == Meet(tied))
            <==> HasBlueprint(tied) || forall c :: c in tied ==> c.value == tied[0].value
  {
    if HasBlueprint(tied) || forall c :: c in tied ==> c.value == tied[0].value {
      forall other | multiset(other) == multiset(tied) && other != [] ensures Meet(other) == Meet(tied) {
        SettledTexts(tied, other);
      }
    } else {
      var other := UnsettledTexts(tied);
    }
  }

  /******* Rows and mandates *******/

  datatype PolicyRow = PolicyRow(
    id: string,
    scope: Scope,
    scopeId: string,
    key: string,
    value: Value,
    priority: int,
    createdAt: Time,
    expiresAt: Option<Time>,
    revokedAt: Option<Time>)

  datatype Mandate = Mandate(
    id: string,
    scope: Scope,
    scopeId: string,
    style: string,
    followupsAllowed: bool,
    reviewPolicy: string,
    followupsPerDay: int,
    allowed: seq<string>,
    restricted: seq<string>,
    createdAt: Time,
    expiresAt: Option<Time>,
    revokedAt: Option<Time>)

  /** Whom a question is asked for. */
  datatype Asker = Asker(company: string, project: Option<string>, track: string, now: Time)

  predicate IsActive(row: PolicyRow, now: Time) {
    row.revokedAt.None? && (row.expiresAt.None? || row.expiresAt.value > now)
  }

  predicate RowApplies(row: PolicyRow, a: Asker) {
    && IsActive(row, a.now)
    && (row.scope.Company? ==> row.scopeId in {a.company, "default"})
    && (row.scope.Project? ==> Some(row.scopeId) == a.project)
    && (row.scope.Track? ==> row.scopeId == a.track)
  }

  predicate MandateApplies(m: Mandate, a: Asker) {
    && m.revokedAt.None? && (m.expiresAt.None? || m.expiresAt.value > a.now)
    && ((m.scope.Project? && Some(m.scopeId) == a.project) || (m.scope.Track? && m.scopeId == a.track))
  }

  function OfRow(row: PolicyRow): Candidate {
    Candidate(row.value, row.priority, row.scope, Some(row.createdAt), Some(row.id))
  }

  function MandateValues(m: Mandate): map<string, Value> {
    map["followups.allowed" := Bool(m.followupsAllowed),
        "style" := Text(if m.style == "" then "blueprint" else m.style),
        "review.policy" := Text(if m.reviewPolicy == "" then "hermes_report" else m.reviewPolicy),
        "max_followups_per_day" := Num(m.followupsPerDay as real)]
  }

  function OfMandate(m: Mandate, v: Value): Candidate {
    Candidate(v, MANDATE, m.scope, Some(m.createdAt), Some(m.id))
  }

  predicate HardKey(key: string) {
    |key| >= 8 && key[..8] == "actions." && key[8..] in HARD_RULES
  }

  const BUILT_IN_KEYS: set<string> := DEFAULTS.Keys + set rule | rule in HARD_RULES :: "actions." + rule

  lemma BuiltInKeys()
    ensures forall key :: key in BUILT_IN_KEYS <==> BuiltIn(key) != []
  {
    forall key ensures key in BUILT_IN_KEYS <==> BuiltIn(key) != [] {
      if HardKey(key) {
        assert key == "actions." + key[8..];
      }
      forall rule | rule in HARD_RULES && key == "actions." + rule ensures HardKey(key) {
        assert key[..8] == "actions." && key[8..] == rule;
      }
    }
  }

  function BuiltIn(key: string): seq<Candidate> {
    if key in DEFAULTS then [Candidate(DEFAULTS[key], DEFAULT, Company, None, None)]
    else if HardKey(key) then [Candidate(Bool(false), HARD, Company, None, None)]
    else []
  }

  function RowCandidates(rows: seq<PolicyRow>, a: Asker, key: string): seq<Candidate> {
    if rows == [] then []
    else
      var row := rows[|rows| - 1];
      RowCandidates(rows[..|rows| - 1], a, key) + if RowApplies(row, a) && row.key == key then [OfRow(row)] else []
  }

  function MandateCandidates(mandates: seq<Mandate>, a: Asker, key: string): seq<Candidate> {
    if mandates == [] then []
    else
      var m := mandates[|mandates| - 1];
      MandateCandidates(mandates[..|mandates| - 1], a, key)
      + if MandateApplies(m, a) && key in MandateValues(m) then [OfMandate(m, MandateValues(m)[key])] else []
  }

  function Candidates(rows: seq<PolicyRow>, mandates: seq<Mandate>, a: Asker, key: string): seq<Candidate> {
    BuiltIn(key) + RowCandidates(rows, a, key) + MandateCandidates(mandates, a, key)
  }

  function Effective(rows: seq<PolicyRow>, mandates: seq<Mandate>, a: Asker, key: string): Option<Candidate> {
    var cs := Candidates(rows, mandates, a, key);
    if cs == [] then None else TopClassFacts(cs); Some(Winner(cs))
  }

  /******* What counts, told from the fields *******/

  /** Revoked, run out, or of somebody else's project or track: such a mandate is as good as none. */
  ghost predicate OutOfForce(m: Mandate, a: Asker) {
    || m.revokedAt.Some?
    || (m.expiresAt.Some? && m.expiresAt.value <= a.now)
    || m.scope.Company? || m.scope.Elsewhere?
    || (m.scope.Project? && a.project != Some(m.scopeId))
    || (m.scope.Track? && a.track != m.scopeId)
  }

  /** The same for a stored row; rows of the company count under its name and under the literal default. */
  ghost predicate RowOutOfForce(row: PolicyRow, a: Asker) {
    || row.revokedAt.Some?
    || (row.expiresAt.Some? && row.expiresAt.value <= a.now)
    || (row.scope.Company? && row.scopeId != a.company && row.scopeId != "default")
    || (row.scope.Project? && a.project != Some(row.scopeId))
    || (row.scope.Track? && a.track != row.scopeId)
  }

  /** What a mandate says of a key, by its fields. */
  ghost predicate Says(m: Mandate, key: string, v: Value) {
    || (key == "followups.allowed" && v == Bool(m.followupsAllowed))
    || (key == "style" && v == Text(m.style) && m.style != "")
    || (key == "style" && v == Text("blueprint") && m.style == "")
    || (key == "review.policy" && v == Text(m.reviewPolicy) && m.reviewPolicy != "")
    || (key == "review.policy" && v == Text("hermes_report") && m.reviewPolicy == "")
    || (key == "max_followups_per_day" && v == Num(m.followupsPerDay as real))
  }

  ghost predicate FromMandate(c: Candidate, m: Mandate, key: string) {
    Says(m, key, c.value) && c == Candidate(c.value, 30, m.scope, Some(m.createdAt), Some(m.id))
  }

  ghost predicate FromRow(c: Candidate, row: PolicyRow, key: string) {
    row.key == key && c == Candidate(row.value, row.priority, row.scope, Some(row.createdAt), Some(row.id))
  }

  /** A default of the key, or the refusal of a hard action. */
  ghost predicate FromStock(c: Candidate, key: string) {
    || (key in DEFAULTS && c == Candidate(DEFAULTS[key], 50, Company, None, None))
    || (c == Candidate(Bool(false), 10, Company, None, None)
        && exists rule :: rule in HARD_RULES && key == "actions." + rule)
  }

  ghost predicate InForce(rows: seq<PolicyRow>, mandates: seq<Mandate>, a: Asker, key: string, c: Candidate) {
    || FromStock(c, key)
    || (exists row :: row in rows && !RowOutOfForce(row, a) && FromRow(c, row, key))
    || (exists m :: m in mandates && !OutOfForce(m, a) && FromMandate(c, m, key))
  }

  /**
   What the resolver chooses from for a key is exactly this: what is built in, the stored rows of the
   key in force, and what the mandates in force say of the key.
   */
  lemma CandidatesAreExactly(rows: seq<PolicyRow>, mandates: seq<Mandate>, a: Asker, key: string, c: Candidate)
    ensures c in Candidates(rows, mandates, a, key) <==> InForce(rows, mandates, a, key, c)
  {
    StockIs(c, key);
    RowsAre(rows, a, key, c);
    MandatesAre(mandates, a, key, c);
    CandidatesAre(rows, mandates, a, key);
    hide FromStock, FromRow, FromMandate, RowOutOfForce, OutOfForce, Candidates, RowCandidates, MandateCandidates,
         BuiltIn;
  }

  lemma CandidatesAre(rows: seq<PolicyRow>, mandates: seq<Mandate>, a: Asker, key: string)
    ensures Candidates(rows, mandates, a, key)
            == BuiltIn(key) + RowCandidates(rows, a, key) + MandateCandidates(mandates, a, key)
  {
  }

  lemma StockIs(c: Candidate, key: string)
    ensures c in BuiltIn(key) <==> FromStock(c, key)
  {
    if HardKey(key) {
      HardKeysAreBuiltIn(key);
      assert key == "actions." + key[8..];
    }
    forall rule | rule in HARD_RULES && key == "actions." + rule ensures HardKey(key) {
      assert key[..8] == "actions." && key[8..] == rule;
    }
  }

  lemma RowsAre(rows: seq<PolicyRow>, a: Asker, key: string, c: Candidate)
    ensures c in RowCandidates(rows, a, key)
            <==> exists row :: row in rows && !RowOutOfForce(row, a) && FromRow(c, row, key)
  {
    RowCandidateMembers(rows, a, key, c);
    forall row | row in rows && row.key == key
      ensures RowApplies(row, a) && OfRow(row) == c <==> !RowOutOfForce(row, a) && FromRow(c, row, key) {}
  }

  lemma {:induction false} MandatesAre(mandates: seq<Mandate>, a: Asker, key: string, c: Candidate)
    ensures c in MandateCandidates(mandates, a, key)
            <==> exists m :: m in mandates && !OutOfForce(m, a) && FromMandate(c, m, key)
  {
    if mandates != [] {
      var front, m := mandates[..|mandates| - 1], mandates[|mandates| - 1];
      MandatesAre(front, a, key, c);
      OneMandateIs(m, a, key, c);
      assert mandates == front + [m];
      hide MandateApplies, OutOfForce, FromMandate, MandateValues, OfMandate;
    }
  }

  lemma OneMandateIs(m: Mandate, a: Asker, key: string, c: Candidate)
    ensures MandateApplies(m, a) && key in MandateValues(m) && OfMandate(m, MandateValues(m)[key]) == c
            <==> !OutOfForce(m, a) && FromMandate(c, m, key)
  {
    assert "followups.allowed"[0] == 'f' && "style"[0] == 's' && "review.policy"[0] == 'r'
           && "max_followups_per_day"[0] == 'm';
  }

  ghost predicate Narrower(x: Scope, y: Scope) {
    || (x.Project? && !y.Project?)
    || (x.Track? && (y.Company? || y.Elsewhere?))
    || (x.Company? && y.Elsewhere?)
  }

  /** The smaller priority number first, then project over track over company over the rest, then the newer. */
  ghost predicate Outranks(best: Candidate, c: Candidate) {
    || best.priority < c.priority
    || (best.priority == c.priority && Narrower(best.scope, c.scope))
    || (best.priority == c.priority && best.scope == c.scope && best.createdAt.Some?
        && (c.createdAt.Some? ==> c.createdAt.value < best.createdAt.value))
  }

  lemma BeatsIs(best: Candidate, c: Candidate)
    ensures Beats(best, c) <==> Outranks(best, c)
  {
  }

  lemma {:induction false} KeepAll(xs: seq<string>, ys: seq<string>)
    requires forall x :: x in xs ==> x in ys
    ensures KeepIn(xs, ys) == xs
  {
    if xs != [] { KeepAll(xs[..|xs| - 1], ys); }
  }

  lemma WithItselfTheSame(v: Value)
    ensures Restrictive(v, v) == v
  {
    if v.Items? { KeepAll(v.items, v.items); }
  }

  /** What is in force and outranks everything else in force is what a key resolves to. */
  lemma TheBestInForceDecides(rows: seq<PolicyRow>, mandates: seq<Mandate>, a: Asker, key: string, best: Candidate)
    requires InForce(rows, mandates, a, key, best)
    requires forall c :: InForce(rows, mandates, a, key, c) && c != best ==> Outranks(best, c)
    ensures Effective(rows, mandates, a, key) == Some(best)
  {
    hide InForce, Candidates, Outranks, Beats;
    var cs := Candidates(rows, mandates, a, key);
    CandidatesAreExactly(rows, mandates, a, key, best);
    forall c | c in cs && c != best ensures Beats(best, c) {
      CandidatesAreExactly(rows, mandates, a, key, c);
      BeatsIs(best, c);
    }
    WithItselfTheSame(best.value);
    SoleBestWins(cs, best);
  }

  /** And in any case a key resolves to something in force that nothing in force outranks; a tie settles its value. */
  lemma NothingOutranksTheWinner(rows: seq<PolicyRow>, mandates: seq<Mandate>, a: Asker, key: string)
    ensures var e := Effective(rows, mandates, a, key);
            && (e.None? <==> forall c :: !InForce(rows, mandates, a, key, c))
            && (e.Some? ==> exists c :: InForce(rows, mandates, a, key, c) && c == e.value.(value := c.value)
                                        && forall d :: InForce(rows, mandates, a, key, d) ==> !Outranks(d, c))
  {
    hide InForce, Candidates, Outranks, Beats;
    var cs := Candidates(rows, mandates, a, key);
    forall c ensures c in cs <==> InForce(rows, mandates, a, key, c) {
      CandidatesAreExactly(rows, mandates, a, key, c);
    }
    if cs != [] {
      TopClassFacts(cs);
      var c := TopClass(cs)[0];
      assert c in TopClass(cs);
      forall d | InForce(rows, mandates, a, key, d) ensures !Outranks(d, c) {
        BeatsIs(d, c);
      }
    } else {
      forall c ensures !InForce(rows, mandates, a, key, c) { assert c !in cs; }
    }
  }

  /** With nothing stored and no mandate the defaults hold, for everyone, and every hard action is refused. */
  lemma NothingStoredMeansDefaults(a: Asker, rule: string)
    ensures Effective([], [], a, "allocation.core") == Some(Candidate(Num(70.0), 50, Company, None, None))
    ensures Effective([], [], a, "allocation.lab") == Some(Candidate(Num(30.0), 50, Company, None, None))
    ensures Effective([], [], a, "followups.allowed") == Some(Candidate(Bool(false), 50, Company, None, None))
    ensures Effective([], [], a, "max_followups_per_day") == Some(Candidate(Num(0.0), 50, Company, None, None))
    ensures Effective([], [], a, "style") == Some(Candidate(Text("blueprint"), 50, Company, None, None))
    ensures Effective([], [], a, "review.policy") == Some(Candidate(Text("hermes_report"), 50, Company, None, None))
    ensures Effective([], [], a, "track_locked") == Some(Candidate(Bool(false), 50, Company, None, None))
    ensures rule in {"production_deploy", "merge_main", "publish_public", "spend_money", "destructive_delete",
                     "grant_access"} ==>
              Effective([], [], a, "actions." + rule) == Some(Candidate(Bool(false), 10, Company, None, None))
  {
    DefaultsAre();
    DefaultHolds(a, "allocation.core");
    DefaultHolds(a, "allocation.lab");
    DefaultHolds(a, "followups.allowed");
    DefaultHolds(a, "max_followups_per_day");
    DefaultHolds(a, "style");
    DefaultHolds(a, "review.policy");
    DefaultHolds(a, "track_locked");
    if rule in HARD_RULES {
      assert ("actions." + rule)[..8] == "actions." && ("actions." + rule)[8..] == rule;
      HardRulesHold([], [], a, "actions." + rule);
    }
    hide *;
  }

  lemma DefaultsAre()
    ensures "allocation.core" in DEFAULTS && DEFAULTS["allocation.core"] == Num(70.0)
    ensures "allocation.lab" in DEFAULTS && DEFAULTS["allocation.lab"] == Num(30.0)
    ensures "followups.allowed" in DEFAULTS && DEFAULTS["followups.allowed"] == Bool(false)
    ensures "max_followups_per_day" in DEFAULTS && DEFAULTS["max_followups_per_day"] == Num(0.0)
    ensures "style" in DEFAULTS && DEFAULTS["style"] == Text("blueprint")
    ensures "review.policy" in DEFAULTS && DEFAULTS["review.policy"] == Text("hermes_report")
    ensures "track_locked" in DEFAULTS && DEFAULTS["track_locked"] == Bool(false)
  {
    assert "allocation.core"[11] == 'c' && "allocation.lab"[11] == 'l' && "followups.allowed"[0] == 'f'
           && "max_followups_per_day"[0] == 'm' && "style"[0] == 's' && "review.policy"[0] == 'r'
           && "track_locked"[0] == 't' && "allocation.core"[0] == 'a';
  }

  lemma DefaultHolds(a: Asker, key: string)
    requires key in DEFAULTS
    ensures Effective([], [], a, key) == Some(Candidate(DEFAULTS[key], 50, Company, None, None))
  {
    var best := Candidate(DEFAULTS[key], 50, Company, None, None);
    var cs := Candidates([], [], a, key);
    assert cs == [best];
    hide Candidates, DEFAULTS;
    WithItselfTheSame(best.value);
    SoleBestWins(cs, best);
  }

  ghost function MandatesInForce(mandates: seq<Mandate>, a: Asker): seq<Mandate> {
    if mandates == [] then []
    else
      var m := mandates[|mandates| - 1];
      MandatesInForce(mandates[..|mandates| - 1], a) + if OutOfForce(m, a) then [] else [m]
  }

  ghost function RowsInForce(rows: seq<PolicyRow>, a: Asker): seq<PolicyRow> {
    if rows == [] then []
    else
      var row := rows[|rows| - 1];
      RowsInForce(rows[..|rows| - 1], a) + if RowOutOfForce(row, a) then [] else [row]
  }

  /** Rows and mandates out of force decide nothing: with all of them gone every key resolves as before. */
  lemma OutOfForceIsIgnored(rows: seq<PolicyRow>, mandates: seq<Mandate>, a: Asker, key: string)
    ensures Effective(rows, mandates, a, key) == Effective(RowsInForce(rows, a), MandatesInForce(mandates, a), a, key)
  {
    hide RowApplies, MandateApplies, BuiltIn;
    RowsOutOfForce(rows, a, key);
    MandatesOutOfForce(mandates, a, key);
  }

  lemma {:induction false} RowsOutOfForce(rows: seq<PolicyRow>, a: Asker, key: string)
    ensures RowCandidates(rows, a, key) == RowCandidates(RowsInForce(rows, a), a, key)
  {
    if rows != [] {
      var front, row := rows[..|rows| - 1], rows[|rows| - 1];
      RowsOutOfForce(front, a, key);
      assert (RowsInForce(front, a) + [row])[..|RowsInForce(front, a)|] == RowsInForce(front, a);
      assert RowsInForce(front, a) + [] == RowsInForce(front, a);
    }
  }

  lemma {:induction false} MandatesOutOfForce(mandates: seq<Mandate>, a: Asker, key: string)
    ensures MandateCandidates(mandates, a, key) == MandateCandidates(MandatesInForce(mandates, a), a, key)
  {
    if mandates != [] {
      var front, m := mandates[..|mandates| - 1], mandates[|mandates| - 1];
      MandatesOutOfForce(front, a, key);
      hide MandateValues, OfMandate;
      assert (MandatesInForce(front, a) + [m])[..|MandatesInForce(front, a)|] == MandatesInForce(front, a);
      assert MandatesInForce(front, a) + [] == MandatesInForce(front, a);
    }
  }

  lemma {:induction false} RowCandidateMembers(rows: seq<PolicyRow>, a: Asker, key: string, c: Candidate)
    ensures c in RowCandidates(rows, a, key)
            <==> exists row :: row in rows && RowApplies(row, a) && row.key == key && OfRow(row) == c
  {
    if rows != [] {
      RowCandidateMembers(rows[..|rows| - 1], a, key, c);
      assert rows == rows[..|rows| - 1] + [rows[|rows| - 1]];
    }
  }

  /** No mandate grants an allocation, a lock or a hard action. */
  lemma {:induction false} MandatesAreSilentOn(mandates: seq<Mandate>, a: Asker, key: string)
    requires key in {ALLOCATION_CORE, ALLOCATION_LAB, TRACK_LOCKED} || HardKey(key)
    ensures MandateCandidates(mandates, a, key) == []
  {
    if mandates != [] {
      MandatesAreSilentOn(mandates[..|mandates| - 1], a, key);
      var m := mandates[|mandates| - 1];
      assert key !in MandateValues(m) by {
        assert key[0] == 'a' || key[0] == 't';
        assert "followups.allowed"[0] == 'f' && "style"[0] == 's' && "review.policy"[0] == 'r'
               && "max_followups_per_day"[0] == 'm';
      }
    }
  }

  lemma CandidateKinds(rows: seq<PolicyRow>, mandates: seq<Mandate>, a: Asker, key: string, c: Candidate)
    requires key in {ALLOCATION_CORE, ALLOCATION_LAB, TRACK_LOCKED} || HardKey(key)
    ensures c in Candidates(rows, mandates, a, key) <==>
              c in BuiltIn(key) || exists row :: row in rows && RowApplies(row, a) && row.key == key && OfRow(row) == c
  {
    MandatesAreSilentOn(mandates, a, key);
    hide RowApplies, BuiltIn, HardKey;
    RowCandidateMembers(rows, a, key, c);
  }

  /** If one row applies and beats every other row for its key, its value is the effective one. */
  lemma SoleBestRow(rows: seq<PolicyRow>, mandates: seq<Mandate>, a: Asker, best: PolicyRow)
    requires best in rows && RowApplies(best, a) && best.priority < DEFAULT
    requires best.key in {ALLOCATION_CORE, ALLOCATION_LAB, TRACK_LOCKED}
    requires Restrictive(best.value, best.value) == best.value
    requires forall row :: row in rows && row.key == best.key && RowApplies(row, a) && OfRow(row) != OfRow(best) ==>
               Beats(OfRow(best), OfRow(row))
    ensures Effective(rows, mandates, a, best.key) == Some(OfRow(best))
  {
    var cs := Candidates(rows, mandates, a, best.key);
    MandatesAreSilentOn(mandates, a, best.key);
    RowCandidateMembers(rows, a, best.key, OfRow(best));
    forall c | c in cs && c != OfRow(best) ensures Beats(OfRow(best), c) {
      if c !in BuiltIn(best.key) { RowCandidateMembers(rows, a, best.key, c); }
    }
    SoleBestWins(cs, OfRow(best));
  }

  lemma HardKeysAreBuiltIn(key: string)
    requires HardKey(key)
    ensures BuiltIn(key) == [Candidate(Bool(false), HARD, Company, None, None)]
  {
    assert key !in DEFAULTS by {
      assert key[0] == 'a' && key[1] == 'c';
      assert ALLOCATION_CORE[1] == 'l' && ALLOCATION_LAB[1] == 'l' && "followups.allowed"[0] == 'f' && "style"[0] == 's'
          && "review.policy"[0] == 'r' && TRACK_LOCKED[0] == 't' && "max_followups_per_day"[0] == 'm';
    }
  }

  /** No stored row and no mandate can enable a hard action: every row ranks below the hard rules. */
  lemma HardRulesHold(rows: seq<PolicyRow>, mandates: seq<Mandate>, a: Asker, key: string)
    requires HardKey(key) && forall row :: row in rows ==> row.priority > HARD
    ensures Effective(rows, mandates, a, key) == Some(Candidate(Bool(false), HARD, Company, None, None))
  {
    var cs, hard := Candidates(rows, mandates, a, key), Candidate(Bool(false), HARD, Company, None, None);
    HardKeysAreBuiltIn(key);
    hide Candidates, BuiltIn, RowApplies, HardKey;
    CandidateKinds(rows, mandates, a, key, hard);
    forall c | c in cs && c != hard ensures Beats(hard, c) {
      CandidateKinds(rows, mandates, a, key, c);
    }
    SoleBestWins(cs, hard);
  }

  function Gather(found: map<string, seq<Candidate>>, key: string): seq<Candidate> {
    if key in found then found[key] else []
  }

  function AddTo(found: map<string, seq<Candidate>>, key: string, c: Candidate): map<string, seq<Candidate>> {
    found[key := Gather(found, key) + [c]]
  }

  /** found holds, key by key, exactly the candidates of these rows and mandates. */
  ghost predicate Collected(
      found: map<string, seq<Candidate>>, rows: seq<PolicyRow>, mandates: seq<Mandate>, a: Asker) {
    && (forall key :: Gather(found, key) == Candidates(rows, mandates, a, key))
    && (forall key :: key in found ==> found[key] != [])
  }

  lemma CandidatesWithRow(rows: seq<PolicyRow>, a: Asker, row: PolicyRow, key: string)
    ensures Candidates(rows + [row], [], a, key)
            == Candidates(rows, [], a, key) + if RowApplies(row, a) && row.key == key then [OfRow(row)] else []
  {
    hide BuiltIn, RowApplies;
    assert (rows + [row])[..|rows|] == rows;
  }

  lemma CollectNothing(a: Asker)
    ensures Collected(map key | key in BUILT_IN_KEYS :: BuiltIn(key), [], [], a)
  {
    BuiltInKeys();
    hide BuiltIn, BUILT_IN_KEYS;
    forall key ensures Candidates([], [], a, key) == BuiltIn(key) {
      assert BuiltIn(key) + [] + [] == BuiltIn(key);
    }
  }

  lemma CollectRow(found: map<string, seq<Candidate>>, rows: seq<PolicyRow>, a: Asker, row: PolicyRow)
    requires Collected(found, rows, [], a)
    ensures Collected(if RowApplies(row, a) then AddTo(found, row.key, OfRow(row)) else found, rows + [row], [], a)
  {
    hide Candidates, RowApplies, OfRow;
    var more := if RowApplies(row, a) then AddTo(found, row.key, OfRow(row)) else found;
    forall key ensures Gather(more, key) == Candidates(rows + [row], [], a, key) {
      assert Gather(found, key) == Candidates(rows, [], a, key);
      CandidatesWithRow(rows, a, row, key);
    }
  }

  function AddMandate(found: map<string, seq<Candidate>>, m: Mandate): map<string, seq<Candidate>> {
    var granted := MandateValues(m);
    map key | key in found.Keys + granted.Keys ::
      Gather(found, key) + if key in granted then [OfMandate(m, granted[key])] else []
  }

  lemma CandidatesWithMandate(rows: seq<PolicyRow>, mandates: seq<Mandate>, a: Asker, m: Mandate, key: string)
    ensures Candidates(rows, mandates + [m], a, key)
            == Candidates(rows, mandates, a, key)
               + if MandateApplies(m, a) && key in MandateValues(m) then [OfMandate(m, MandateValues(m)[key])] else []
  {
    assert (mandates + [m])[..|mandates|] == mandates;
  }

  lemma GatherWithMandate(found: map<string, seq<Candidate>>, m: Mandate, key: string)
    ensures Gather(AddMandate(found, m), key)
            == Gather(found, key) + if key in MandateValues(m) then [OfMandate(m, MandateValues(m)[key])] else []
  {
  }

  lemma CollectMandate(found: map<string, seq<Candidate>>, rows: seq<PolicyRow>, mandates: seq<Mandate>,
      a: Asker, m: Mandate)
    requires Collected(found, rows, mandates, a)
    ensures Collected(if MandateApplies(m, a) then AddMandate(found, m) else found, rows, mandates + [m], a)
  {
    var more := if MandateApplies(m, a) then AddMandate(found, m) else found;
    forall key ensures Gather(more, key) == Candidates(rows, mandates + [m], a, key) {
      CandidatesWithMandate(rows, mandates, a, m, key);
      GatherWithMandate(found, m, key);
    }
    forall key | key in more ensures more[key] != [] {
      assert more[key] == Gather(more, key);
    }
  }

  method Collect(rows: seq<PolicyRow>, mandates: seq<Mandate>, a: Asker) returns (found: map<string, seq<Candidate>>)
    ensures Collected(found, rows, mandates, a)
  {
    hide Collected, RowApplies, MandateApplies, AddTo, AddMandate, OfRow, BuiltIn;
    found := map key | key in BUILT_IN_KEYS :: BuiltIn(key);
    CollectNothing(a);
    assert rows[..0] == [] && mandates[..0] == [];
    for i := 0 to |rows|
      invariant Collected(found, rows[..i], [], a)
    {
      CollectRow(found, rows[..i], a, rows[i]);
      assert rows[..i + 1] == rows[..i] + [rows[i]];
      if RowApplies(rows[i], a) {
        found := AddTo(found, rows[i].key, OfRow(rows[i]));
      }
    }
    assert rows[..|rows|] == rows;
    for i := 0 to |mandates|
      invariant Collected(found, rows, mandates[..i], a)
    {
      CollectMandate(found, rows, mandates[..i], a, mandates[i]);
      assert mandates[..i + 1] == mandates[..i] + [mandates[i]];
      if MandateApplies(mandates[i], a) {
        found := AddMandate(found, mandates[i]);
      }
    }
    assert mandates[..|mandates|] == mandates;
  }

  /** Resolves every key at once, the way the resolver fills its dictionary of candidates. */
  method ResolveAll(rows: seq<PolicyRow>, mandates: seq<Mandate>, a: Asker) returns (values: map<string, Candidate>)
    ensures forall key :: (if key in values then Some(values[key]) else None) == Effective(rows, mandates, a, key)
  {
    var found := Collect(rows, mandates, a);
    values := PickEach(found);
    forall key ensures (if key in values then Some(values[key]) else None) == Effective(rows, mandates, a, key) {
      assert Gather(found, key) == Candidates(rows, mandates, a, key);
    }
  }

  method PickEach(found: map<string, seq<Candidate>>) returns (values: map<string, Candidate>)
    requires forall key :: key in found ==> found[key] != []
    ensures values.Keys == found.Keys
    ensures forall key :: key in found ==> TopClass(found[key]) != [] && values[key] == Winner(found[key])
  {
    values := map[];
    var left := found.Keys;
    while left != {}
      invariant left <= found.Keys
      invariant values.Keys == found.Keys - left
      invariant forall key :: key in values ==> TopClass(found[key]) != [] && values[key] == Winner(found[key])
    {
      var key :| key in left;
      var winner := Pick(found[key]);
      values := values[key := winner];
      left := left - {key};
    }
  }

  /******* Overrides and permission *******/

  datatype OverrideError = MissingField | UnknownKey | HardRule

  /** What an operator may override: a known key that is not a hard rule, at a named scope. */
  function SetOverride(row: PolicyRow): (r: Result<PolicyRow, OverrideError>) {
    if row.scope.Elsewhere? || row.scopeId == "" || row.key == "" then Err(MissingField)
    else if row.key !in DEFAULTS && row.key !in HARD_RULES then Err(UnknownKey)
    else if row.key in HARD_RULES then Err(HardRule)
    else Ok(row.(priority := OPERATOR, revokedAt := None))
  }

  /** Overrides never touch a hard action, so the hard rules survive any sequence of them. */
  lemma OverridesKeepHardRules(rows: seq<PolicyRow>, asked: PolicyRow, mandates: seq<Mandate>, a: Asker, key: string)
    requires HardKey(key) && forall row :: row in rows ==> row.priority > HARD
    requires SetOverride(asked).Ok?
    ensures var after := rows + [SetOverride(asked).value];
            && (forall row :: row in after ==> row.priority > HARD)
            && Effective(after, mandates, a, key) == Effective(rows, mandates, a, key)
  {
    HardRulesHold(rows, mandates, a, key);
    HardRulesHold(rows + [SetOverride(asked).value], mandates, a, key);
  }

  /** Exactly these are refused, and what is stored is what was asked, at the operator's rank and unrevoked. */
  lemma OverridesAreExact(asked: PolicyRow)
    ensures var r, known := SetOverride(asked), asked.key in DEFAULTS || asked.key in HARD_RULES;
            var nowhere := asked.scope == Elsewhere || asked.scopeId == "" || asked.key == "";
            && (r == Err(MissingField) <==> nowhere)
            && (r == Err(UnknownKey) <==> !nowhere && !known)
            && (r == Err(HardRule) <==> !nowhere && asked.key in HARD_RULES)
            && (r.Ok? ==> r.value == PolicyRow(asked.id, asked.scope, asked.scopeId, asked.key, asked.value, 20,
                                               asked.createdAt, asked.expiresAt, None))
  {
    HardRulesAreNoDefaults(asked.key);
    hide DEFAULTS, HARD_RULES;
  }

  lemma HardRulesAreNoDefaults(key: string)
    ensures key in HARD_RULES ==> key !in DEFAULTS
  {
  }

  /**
   An override takes effect: for anyone in its scope, until it runs out, the key has the value asked, unless
   another operator's row is of a narrower scope, or of the same scope and not older, or a row outranks them.
   */
  lemma OverridesTakeEffect(rows: seq<PolicyRow>, mandates: seq<Mandate>, a: Asker, asked: PolicyRow)
    requires SetOverride(asked).Ok? && !RowOutOfForce(SetOverride(asked).value, a)
    requires forall row :: row in rows && row.key == asked.key && !RowOutOfForce(row, a) ==>
               || row.priority > 20
               || (row.priority == 20 && Narrower(asked.scope, row.scope))
               || (row.priority == 20 && row.scope == asked.scope && row.createdAt < asked.createdAt)
    ensures Effective(rows + [SetOverride(asked).value], mandates, a, asked.key)
            == Some(Candidate(asked.value, 20, asked.scope, Some(asked.createdAt), Some(asked.id)))
  {
    OverridesAreExact(asked);
    var row := SetOverride(asked).value;
    var best := Candidate(asked.value, 20, asked.scope, Some(asked.createdAt), Some(asked.id));
    var after := rows + [row];
    assert after[|rows|] == row && FromRow(best, row, asked.key);
    OverridableKeysAreNotHard(asked);
    forall c | InForce(after, mandates, a, asked.key, c) && c != best ensures Outranks(best, c) {
      if x :| x in after && !RowOutOfForce(x, a) && FromRow(c, x, asked.key) {
        assert x in rows || x == row;
      }
    }
    hide Effective;
    TheBestInForceDecides(after, mandates, a, asked.key, best);
  }

  lemma OverridableKeysAreNotHard(asked: PolicyRow)
    requires SetOverride(asked).Ok?
    ensures forall rule :: rule in HARD_RULES ==> asked.key != "actions." + rule
  {
    forall rule | rule in HARD_RULES ensures asked.key != "actions." + rule {
      var hard := "actions." + rule;
      assert hard[0] == 'a' && hard[1] == 'c';
      assert asked.key in DEFAULTS;
      assert ALLOCATION_CORE[1] == 'l' && ALLOCATION_LAB[1] == 'l' && "followups.allowed"[0] == 'f' && "style"[0] == 's'
          && "review.policy"[0] == 'r' && TRACK_LOCKED[0] == 't' && "max_followups_per_day"[0] == 'm';
    }
  }

  datatype Reason = HardRuleReason | RestrictedReason | NotAllowedReason | LockedReason | AllowedReason

  ghost predicate Locked(rows: seq<PolicyRow>, mandates: seq<Mandate>, a: Asker) {
    var e := Effective(rows, mandates, a, TRACK_LOCKED);
    e.Some? && e.value.value == Bool(true)
  }

  ghost predicate Restricts(mandates: seq<Mandate>, a: Asker, action: string) {
    exists m :: m in mandates && MandateApplies(m, a) && action in m.restricted
  }

  ghost predicate Lists(mandates: seq<Mandate>, a: Asker) {
    exists m :: m in mandates && MandateApplies(m, a) && m.allowed != []
  }

  ghost predicate Grants(mandates: seq<Mandate>, a: Asker, action: string) {
    exists m :: m in mandates && MandateApplies(m, a) && action in m.allowed
  }

  /** Restrictions, lists and grants are those of the mandates in force, and of no others. */
  lemma MandatesInForceDecide(mandates: seq<Mandate>, a: Asker, action: string)
    ensures Restricts(mandates, a, action)
            <==> exists m :: m in mandates && !OutOfForce(m, a) && action in m.restricted
    ensures Lists(mandates, a) <==> exists m :: m in mandates && !OutOfForce(m, a) && m.allowed != []
    ensures Grants(mandates, a, action) <==> exists m :: m in mandates && !OutOfForce(m, a) && action in m.allowed
  {
    forall m ensures MandateApplies(m, a) <==> !OutOfForce(m, a) {}
  }

  /** Whether an action may be taken, and the first reason why not. */
  method Check(rows: seq<PolicyRow>, mandates: seq<Mandate>, a: Asker, action: string) returns (allowed: bool,
      reason: Reason)
    ensures allowed <==>
              && action !in HARD_RULES
              && !Restricts(mandates, a, action)
              && (Lists(mandates, a) ==> Grants(mandates, a, action))
              && !Locked(rows, mandates, a)
    ensures reason ==
              if action in HARD_RULES then HardRuleReason
              else if Restricts(mandates, a, action) then RestrictedReason
              else if Lists(mandates, a) && !Grants(mandates, a, action) then NotAllowedReason
              else if Locked(rows, mandates, a) then LockedReason
              else AllowedReason
  {
    var values := ResolveAll(rows, mandates, a);
    if action in HARD_RULES { return false, HardRuleReason; }
    var restricted: seq<string> := [];
    var allowedSets: seq<seq<string>> := [];
    for i := 0 to |mandates|
      invariant action in restricted <==> Restricts(mandates[..i], a, action)
      invariant allowedSets != [] <==> Lists(mandates[..i], a)
      invariant (exists s :: s in allowedSets && action in s) <==> Grants(mandates[..i], a, action)
    {
      var m := mandates[i];
      assert mandates[..i + 1] == mandates[..i] + [m];
      if MandateApplies(m, a) {
        restricted := restricted + m.restricted;
        if m.allowed != [] {
          ghost var before := allowedSets;
          allowedSets := allowedSets + [m.allowed];
          assert forall s :: s in allowedSets <==> s in before || s == m.allowed;
        }
      }
      assert m in mandates[..i + 1];
    }
    assert mandates[..|mandates|] == mandates;
    if action in restricted { return false, RestrictedReason; }
    if allowedSets != [] && !(exists s :: s in allowedSets && action in s) { return false, NotAllowedReason; }
    assert Effective(rows, mandates, a, TRACK_LOCKED)
           == if TRACK_LOCKED in values then Some(values[TRACK_LOCKED]) else None;
    if TRACK_LOCKED in values && values[TRACK_LOCKED].value == Bool(true) { return false, LockedReason; }
    return true, AllowedReason;
  }
}
