/** Entry transactions while the central database comes and goes: an insert goes to the central store,
    or to the local one when the central cannot be reached, and an upload pass later moves the local
    rows.  The model is a machine of single database statements, any of which may fail. */
module StoreForward {
  import opened Options

  datatype Detail = Detail(station: string, kind: int, status: int, serial: string, cardType: int, cardNo: string,
                           paid: real, fee: real, gst: real, lpn: string)

  /** One transaction; its key is what the local delete looks for. */
  datatype Row = Row(iu: string, time: string, detail: Detail, vcc: string, sid: string)
  {
    function Key(): (string, string) { (iu, time) }

    /** The local insert leaves the VCC column out. */
    function Local(): Row { this.(vcc := "") }

    /** The upload's insert leaves the entry LPN column out. */
    function Uploaded(): Row { this.(sid := "") }
  }

  datatype DBError = iDBSuccess | iCentralFail | iLocalFail

  /** The fate of a statement; a reported failure may have taken effect all the same. */
  datatype Answer = Done | NotDone | DoneUnreported
  {
    predicate Applied() { this != NotDone }
  }

  /** A fetched row either has a malformed number, which ends the pass, or is sent. */
  datatype Sending = Unreadable | Sent(answer: Answer)

  /** Answers for one row of a pass; the second is used only if the first is success. */
  datatype RowAnswers = RowAnswers(upload: Sending, delete: Answer)

  datatype Step =
    | Insert(row: Row, central: Option<Answer>, local: Option<Answer>) // None: no connection
    | Fetch(rows: seq<Row>)
    | Upload(sending: Sending)
    | Delete(answer: Answer)

  /** The two tables, the rows an upload pass has still to send, and the row it has sent and not
      yet deleted. */
  datatype Stores = Stores(central: seq<Row>, local: seq<Row>, queue: seq<Row>, sent: Option<Row>, offline: nat)
  {
    predicate Quiet() { queue == [] && sent.None? }
  }

  const EMPTY := Stores([], [], [], None, 0)

  function Added(table: seq<Row>, r: Row, a: Answer): seq<Row> { if a.Applied() then table + [r] else table }

  /** The table without the rows that have a key. */
  function Without(table: seq<Row>, k: (string, string)): seq<Row> {
    if table == [] then []
    else
      var rest := Without(table[..|table| - 1], k);
      if table[|table| - 1].Key() == k then rest else rest + [table[|table| - 1]]
  }

  /** What an insert reports. */
  function Reported(central: Option<Answer>, local: Option<Answer>): DBError {
    match central
    case Some(a) => if a == Done then iDBSuccess else iCentralFail
    case None => if local == Some(Done) then iDBSuccess else iLocalFail
  }

  function Next(s: Stores, a: Step): Stores {
    match a
    case Insert(r, Some(c), _) => s.(central := Added(s.central, r, c))
    case Insert(r, None, Some(l)) =>
      s.(local := Added(s.local, r.Local(), l), offline := s.offline + if l == Done then 1 else 0)
    case Insert(_, None, None) => s
    case Fetch(rows) => if s.Quiet() && multiset(rows) == multiset(s.local) then s.(queue := rows) else s
    case Upload(Unreadable) => if s.sent.None? then s.(queue := []) else s
    case Upload(Sent(x)) =>
      if s.sent.None? && s.queue != [] then
        s.(central := Added(s.central, s.queue[0].Uploaded(), x),
        queue := s.queue[1..],
        sent := if x == Done then Some(s.queue[0]) else None)
      else s
    case Delete(x) =>
      if s.sent.Some? then
        s.(local := if x.Applied() then Without(s.local, s.sent.value.Key()) else s.local, sent := None)
      else s
  }

  function Run(s: Stores, steps: seq<Step>): Stores {
    if steps == [] then s else Next(Run(s, steps[..|steps| - 1]), steps[|steps| - 1])
  }

  lemma {:induction false} RunJoins(s: Stores, a: seq<Step>, b: seq<Step>)
    ensures Run(s, a + b) == Run(Run(s, a), b)
  {
    if b == [] {
      assert a + b == a;
    } else {
      assert (a + b)[..|a + b| - 1] == a + b[..|b| - 1];
      RunJoins(s, a, b[..|b| - 1]);
    }
  }

  // ---- the operations ----

  /** The steps for one row of a pass, and for the first n rows. */
  function RowSteps(x: RowAnswers): seq<Step> {
    [Upload(x.upload)] + if x.upload == Sent(Done) then [Delete(x.delete)] else []
  }

  function PassSteps(xs: seq<RowAnswers>, n: nat): seq<Step>
    requires n <= |xs|
  {
    if n == 0 then [] else PassSteps(xs, n - 1) + RowSteps(xs[n - 1])
  }

  predicate AllReadable(xs: seq<RowAnswers>, n: nat)
    requires n <= |xs|
  {
    forall i | 0 <= i < n :: xs[i].upload != Unreadable
  }

  /** A pass looks at n rows: every one, or those up to the first that cannot be read. */
  predicate EndsAt(xs: seq<RowAnswers>, n: nat) {
    && n <= |xs|
    && (n > 0 ==> AllReadable(xs, n - 1))
    && (n < |xs| ==> n > 0 && xs[n - 1].upload == Unreadable)
  }

  /** The stores after the steps for one row. */
  function RowDone(s: Stores, x: RowAnswers): Stores {
    var u := Next(s, Upload(x.upload));
    if x.upload == Sent(Done) then Next(u, Delete(x.delete)) else u
  }

  class Database {
    var central: seq<Row>
    var local: seq<Row>
    var offline: nat

    constructor ()
      ensures View([], None) == EMPTY
    {
      central, local, offline := [], [], 0;
    }

    function View(queue: seq<Row>, sent: Option<Row>): Stores
      reads this
    {
      Stores(central, local, queue, sent, offline)
    }

    /** An insert falls back to the local table only when the central cannot be reached, never when
        the central refuses the statement. */
    method InsertEntry(r: Row, c: Option<Answer>, l: Option<Answer>) returns (err: DBError)
      modifies this
      ensures View([], None) == Next(old(View([], None)), Insert(r, c, l)) && err == Reported(c, l)
    {
      if c.Some? {
        if c.value.Applied() { central := central + [r]; }
        return if c.value == Done then iDBSuccess else iCentralFail;
      }
      if l.None? { return iLocalFail; }
      if l.value.Applied() { local := local + [r.Local()]; }
      if l.value != Done { return iLocalFail; }
      offline := offline + 1;
      return iDBSuccess;
    }

    /** A row stays unless the statement took effect and the row has the key; the rows that stay keep
        their order and number. */
    method DeleteLocalTrans(k: (string, string), x: Answer)
      modifies this`local
      ensures forall r :: r in local <==> r in old(local) && !(x.Applied() && r.Key() == k)
      ensures forall j :: Copies(local, j) == if x.Applied() && j == k then 0 else Copies(old(local), j)
      ensures local == if x.Applied() then Without(old(local), k) else old(local)
    {
      if x.Applied() {
        forall r ensures r in Without(local, k) <==> r in local && r.Key() != k { WithoutKeepsOthers(local, k, r); }
        forall j ensures Copies(Without(local, k), j) == if j == k then 0 else Copies(local, j) {
          CopiesWithout(local, j, k);
        }
        local := Without(local, k);
      }
    }

    /** One round of the upload loop, for row r with rest still to come. */
    method MoveRow(r: Row, rest: seq<Row>, x: RowAnswers) returns (readable: bool)
      modifies this
      ensures readable == (x.upload != Unreadable)
      ensures View(if readable then rest else [], None)
           == RowDone(old(View([r] + rest, None)), x)
    {
      readable := x.upload.Sent?;
      assert ([r] + rest)[1..] == rest;
      if readable {
        if x.upload.answer.Applied() { central := central + [r.Uploaded()]; }
        if x.upload.answer == Done { DeleteLocalTrans(r.Key(), x.delete); }
      }
    }

    /** The upload loop; n rows are looked at, all of them or up to the first unreadable one. */
    method MoveRows(todo: seq<Row>, xs: seq<RowAnswers>) returns (n: nat)
      requires |xs| == |todo|
      modifies this
      ensures EndsAt(xs, n)
      ensures View([], None) == Run(old(View(todo, None)), PassSteps(xs, n))
    {
      hide *;
      n := 0;
      NoRowYet(View(todo, None), todo, xs);
      while n < |todo|
        invariant 0 <= n <= |todo|
        invariant AllReadable(xs, n)
        invariant View(todo[n..], None) == Run(old(View(todo, None)), PassSteps(xs, n))
      {
        PassStep(old(View(todo, None)), xs, n);
        NextRow(todo, xs, n);
        var readable := MoveRow(todo[n], todo[n + 1..], xs[n]);
        n := n + 1;
        if !readable {
          EndsThere(xs, n);
          return;
        }
      }
      EndsAtLast(todo, xs);
    }

    /** An upload pass over the rows the select returned, if it returned any. */
    method MoveOffline(rows: Option<seq<Row>>, xs: seq<RowAnswers>) returns (n: nat)
      requires rows.Some? ==> |xs| == |rows.value| && multiset(rows.value) == multiset(local)
      modifies this
      ensures rows.None? ==> n == 0 && View([], None) == old(View([], None))
      ensures rows.Some? ==>
                EndsAt(xs, n) && View([], None) == Run(old(View([], None)), [Fetch(rows.value)] + PassSteps(xs, n))
    {
      if rows.None? { return 0; }
      n := MoveRows(rows.value, xs);
      RunJoins(old(View([], None)), [Fetch(rows.value)], PassSteps(xs, n));
      RunJoinsOne(old(View([], None)), Fetch(rows.value));
    }
  }

  lemma NoRowYet(s: Stores, todo: seq<Row>, xs: seq<RowAnswers>)
    ensures AllReadable(xs, 0) && Run(s, PassSteps(xs, 0)) == s && todo[0..] == todo
  {
  }

  lemma NextRow(todo: seq<Row>, xs: seq<RowAnswers>, n: nat)
    requires n < |todo| == |xs| && AllReadable(xs, n)
    ensures todo[n..] == [todo[n]] + todo[n + 1..]
    ensures xs[n].upload != Unreadable ==> AllReadable(xs, n + 1)
  {
  }

  lemma EndsThere(xs: seq<RowAnswers>, n: nat)
    requires 0 < n <= |xs| && AllReadable(xs, n - 1) && xs[n - 1].upload == Unreadable
    ensures EndsAt(xs, n)
  {
  }

  lemma EndsAtLast(todo: seq<Row>, xs: seq<RowAnswers>)
    requires |todo| == |xs| && AllReadable(xs, |xs|)
    ensures EndsAt(xs, |xs|) && todo[|todo|..] == []
  {
  }

  lemma RunJoinsOne(s: Stores, a: Step)
    ensures Run(s, [a]) == Next(s, a)
  {
    assert [a][..0] == [];
    assert Run(s, []) == s;
  }

  lemma PassStep(s: Stores, xs: seq<RowAnswers>, n: nat)
    requires n < |xs|
    ensures Run(s, PassSteps(xs, n + 1)) == RowDone(Run(s, PassSteps(xs, n)), xs[n])
  {
    var p, q := PassSteps(xs, n), RowSteps(xs[n]);
    RunJoins(s, p, q);
    RunJoinsOne(Run(s, p), q[0]);
    if xs[n].upload == Sent(Done) {
      assert q == [q[0]] + [q[1]];
      RunJoins(Run(s, p), [q[0]], [q[1]]);
      RunJoinsOne(Next(Run(s, p), q[0]), q[1]);
    } else {
      assert q == [q[0]];
    }
  }

  // ---- nothing accepted is lost ----

  /** Step i is an insert that reported success. */
  predicate Accepted(steps: seq<Step>, i: nat) {
    i < |steps| && steps[i].Insert? && Reported(steps[i].central, steps[i].local) == iDBSuccess
  }

  /** Every transaction given to the client in these steps is one of given. */
  predicate GivenFrom(given: set<Row>, steps: seq<Step>) {
    forall i | 0 <= i < |steps| :: steps[i].Insert? ==> steps[i].row in given
  }

  /** Transactions with the same key agree in everything but the two columns that are not uploaded. */
  predicate KeysTellApart(given: set<Row>) {
    forall a, b | a in given && b in given :: a.Key() == b.Key() ==> a.detail == b.detail
  }

  /** The transaction is in the central table, complete or, by way of the local one, without its VCC and entry
      LPN id, or it waits in the local table without its VCC; key and details are always there. */
  predicate Held(s: Stores, r: Row) {
    || r in s.central || Row(r.iu, r.time, r.detail, "", "") in s.central
    || Row(r.iu, r.time, r.detail, "", r.sid) in s.local
  }

  predicate FromLocal(given: set<Row>, x: Row) {
    exists g :: g in given && x == Row(g.iu, g.time, g.detail, "", g.sid)
  }

  predicate FromGiven(given: set<Row>, x: Row) {
    exists g :: g in given && (x == g || x == Row(g.iu, g.time, g.detail, "", ""))
  }

  /** Every row anywhere is a given transaction, and a row about to be deleted is in the central table. */
  ghost predicate Sound(given: set<Row>, s: Stores) {
    && (forall x | x in s.central :: FromGiven(given, x))
    && (forall x | x in s.local :: FromLocal(given, x))
    && (forall x | x in s.queue :: FromLocal(given, x))
    && (s.sent.Some? ==> FromLocal(given, s.sent.value) && s.sent.value.Uploaded() in s.central)
  }

  lemma {:induction false} WithoutKeepsOthers(table: seq<Row>, k: (string, string), x: Row)
    ensures x in Without(table, k) <==> x in table && x.Key() != k
  {
    if table != [] {
      WithoutKeepsOthers(table[..|table| - 1], k, x);
      assert table == table[..|table| - 1] + [table[|table| - 1]];
    }
  }

  lemma SoundNext(given: set<Row>, s: Stores, a: Step)
    requires Sound(given, s) && (a.Insert? ==> a.row in given)
    ensures Sound(given, Next(s, a))
  {
    match a
    case Insert(r, _, _) =>
      assert FromGiven(given, r) && FromLocal(given, r.Local());
    case Fetch(rows) =>
      if multiset(rows) == multiset(s.local) {
        forall x | x in rows ensures FromLocal(given, x) {
          assert x in multiset(rows);
          assert x in s.local;
        }
      }
    case Upload(Unreadable) =>
    case Upload(Sent(x)) =>
      if s.queue != [] {
        var head := s.queue[0];
        assert head in s.queue;
        var g :| g in given && head == g.Local();
        assert FromGiven(given, head.Uploaded());
      }
    case Delete(x) =>
      if s.sent.Some? {
        forall r | r in Without(s.local, s.sent.value.Key()) ensures FromLocal(given, r) {
          WithoutKeepsOthers(s.local, s.sent.value.Key(), r);
        }
      }
  }

  lemma {:induction false} RunSound(given: set<Row>, steps: seq<Step>)
    requires GivenFrom(given, steps)
    ensures Sound(given, Run(EMPTY, steps))
  {
    if steps != [] {
      var before := steps[..|steps| - 1];
      assert GivenFrom(given, before);
      RunSound(given, before);
      SoundNext(given, Run(EMPTY, before), steps[|steps| - 1]);
    }
  }

  lemma HeldStays(given: set<Row>, s: Stores, a: Step, r: Row)
    requires Sound(given, s) && KeysTellApart(given) && r in given && Held(s, r)
    ensures Held(Next(s, a), r)
  {
    var x := Row(r.iu, r.time, r.detail, "", r.sid);
    if a.Delete? && s.sent.Some? && x in s.local {
      var g :| g in given && s.sent.value == Row(g.iu, g.time, g.detail, "", g.sid);
      WithoutKeepsOthers(s.local, g.Key(), x);
      assert r.Key() == g.Key() ==> r.detail == g.detail;
    }
  }

  /** In every run, whatever statements fail, each transaction whose insert reported success is in
      the central or the local table after every step from then on. */
  lemma {:induction false} AcceptedIsHeld(given: set<Row>, steps: seq<Step>, i: nat)
    requires KeysTellApart(given) && GivenFrom(given, steps) && Accepted(steps, i)
    ensures Held(Run(EMPTY, steps), steps[i].row)
  {
    var before := steps[..|steps| - 1];
    assert GivenFrom(given, before);
    if i < |before| {
      assert before[i] == steps[i];
      AcceptedIsHeld(given, before, i);
      RunSound(given, before);
      HeldStays(given, Run(EMPTY, before), steps[|steps| - 1], steps[i].row);
    }
  }

  /** What a report says of the tables: with the connection standing nothing goes to the local table, without it
      nothing to the central one; a reported success has put the row where the connection says, and
      only a local one counts as offline; a reported failure may have put it there too. */
  lemma ReportsTell(s: Stores, r: Row, c: Option<Answer>, l: Option<Answer>)
    ensures var t, err := Next(s, Insert(r, c, l)), Reported(c, l);
            && t.queue == s.queue && t.sent == s.sent
            && (err == iCentralFail ==> c.Some? && t.local == s.local && t.offline == s.offline)
            && (err == iLocalFail ==> c.None? && t.central == s.central && t.offline == s.offline)
            && (err == iDBSuccess <==> c == Some(Done) || (c == None && l == Some(Done)))
            && (c == Some(DoneUnreported) ==> err == iCentralFail && t.central == s.central + [r])
            && (c == None && l == Some(DoneUnreported) ==> err == iLocalFail && |t.local| == |s.local| + 1)
            && (err == iDBSuccess ==>
                  if c.Some? then t.central == s.central + [r] && t.local == s.local && t.offline == s.offline
                  else t.central == s.central && t.local == s.local + [Row(r.iu, r.time, r.detail, "", r.sid)]
                       && t.offline == s.offline + 1)
  {
  }

  /** A transaction that went straight to the central table stays there with all its columns. */
  lemma {:induction false} CentralIsComplete(steps: seq<Step>, i: nat)
    requires i < |steps| && steps[i].Insert? && steps[i].central == Some(Done)
    ensures steps[i].row in Run(EMPTY, steps).central
  {
    var before := steps[..|steps| - 1];
    if i < |before| {
      assert before[i] == steps[i];
      CentralIsComplete(before, i);
    }
  }

  /** Given these transactions, no run loses one it accepted. */
  ghost predicate Safe(given: set<Row>) {
    forall steps: seq<Step>, i: nat | GivenFrom(given, steps) && Accepted(steps, i) ::
      Held(Run(EMPTY, steps), steps[i].row)
  }

  /** Two offline transactions with one key, an upload of the first, and a failing upload of the second. */
  function LosingRun(a: Row, b: Row): seq<Step> {
    [Insert(a, None, Some(Done)), Insert(b, None, Some(Done)), Fetch([a.Local(), b.Local()]),
     Upload(Sent(Done)), Delete(Done), Upload(Sent(NotDone))]
  }

  /** The stores when both rows wait for their upload. */
  function BothWaiting(x: Row, y: Row): Stores { Stores([], [x, y], [x, y], None, 2) }

  /** The stores when the first of them has been sent. */
  function FirstSent(x: Row, y: Row): (s: Stores)
    ensures s == Next(BothWaiting(x, y), Upload(Sent(Done)))
  {
    Stores([x.Uploaded()], [x, y], [y], Some(x), 2)
  }

  lemma SecondLost(x: Row, y: Row)
    requires x.Key() == y.Key()
    ensures Next(Next(FirstSent(x, y), Delete(Done)), Upload(Sent(NotDone))) == Stores([x.Uploaded()], [], [], None, 2)
  {
    WithoutBoth(x, y);
  }

  lemma BothWait(a: Row, b: Row)
    ensures Run(EMPTY, LosingRun(a, b)[..3]) == BothWaiting(a.Local(), b.Local())
  {
    var l := LosingRun(a, b);
    RunExtends(EMPTY, l, 0, EMPTY);
    RunExtends(EMPTY, l, 1, EMPTY.(local := [a.Local()], offline := 1));
    RunExtends(EMPTY, l, 2, EMPTY.(local := [a.Local(), b.Local()], offline := 2));
  }

  lemma SharedKeyLoses(a: Row, b: Row)
    requires a.Key() == b.Key() && a.detail != b.detail
    ensures Accepted(LosingRun(a, b), 1) && LosingRun(a, b)[1].row == b
    ensures var s := Run(EMPTY, LosingRun(a, b)); s.Quiet() && s.local == [] && !Held(s, b)
  {
    hide Next, Run, Without;
    var l := LosingRun(a, b);
    BothWait(a, b);
    RunExtends(EMPTY, l, 3, BothWaiting(a.Local(), b.Local()));
    RunExtends(EMPTY, l, 4, FirstSent(a.Local(), b.Local()));
    SecondLost(a.Local(), b.Local());
    RunExtends(EMPTY, l, 5, Next(FirstSent(a.Local(), b.Local()), Delete(Done)));
    assert l[..6] == l;
  }

  /** A run one step longer. */
  lemma RunExtends(s: Stores, steps: seq<Step>, n: nat, t: Stores)
    requires n < |steps| && Run(s, steps[..n]) == t
    ensures Run(s, steps[..n + 1]) == Next(t, steps[n])
  {
    assert steps[..n + 1][..n] == steps[..n];
  }

  lemma WithoutBoth(x: Row, y: Row)
    requires x.Key() == y.Key()
    ensures Without([x, y], x.Key()) == []
  {
    assert [x, y][..1] == [x] && [x][..0] == [];
    assert Without([x], x.Key()) == [];
  }

  /** The two-store protocol is safe for a family of transactions exactly when their keys tell them apart. */
  lemma SafeExactlyWhenKeysTellApart(given: set<Row>)
    ensures Safe(given) <==> KeysTellApart(given)
  {
    if KeysTellApart(given) {
      forall steps: seq<Step>, i: nat | GivenFrom(given, steps) && Accepted(steps, i)
        ensures Held(Run(EMPTY, steps), steps[i].row)
      {
        AcceptedIsHeld(given, steps, i);
      }
    } else {
      var a, b :| a in given && b in given && a.Key() == b.Key() && a.detail != b.detail;
      SharedKeyLoses(a, b);
      assert GivenFrom(given, LosingRun(a, b)) && Accepted(LosingRun(a, b), 1);
    }
  }

  /** A table holds a row with this key and these details. */
  predicate HasDetails(table: seq<Row>, k: (string, string), d: Detail) {
    exists y :: y in table && y.Key() == k && y.detail == d
  }

  /** A local row disappears only in the delete of a row with its key whose central insert has succeeded; when
      keys tell transactions apart, a row with its own key and details is then in the central table. */
  lemma DeletedOnlyOnceCentral(given: set<Row>, steps: seq<Step>, a: Step, x: Row)
    requires GivenFrom(given, steps)
    requires var s := Run(EMPTY, steps); x in s.local && x !in Next(s, a).local
    ensures var s := Run(EMPTY, steps);
            && a.Delete? && s.sent.Some? && s.sent.value.Key() == x.Key()
            && HasDetails(s.central, x.Key(), s.sent.value.detail)
            && (KeysTellApart(given) ==> HasDetails(s.central, x.Key(), x.detail))
  {
    var s := Run(EMPTY, steps);
    RunSound(given, steps);
    if a.Delete? && s.sent.Some? {
      WithoutKeepsOthers(s.local, s.sent.value.Key(), x);
      var g :| g in given && s.sent.value == Row(g.iu, g.time, g.detail, "", g.sid);
      var h :| h in given && x == Row(h.iu, h.time, h.detail, "", h.sid);
      assert s.sent.value.Uploaded().detail == s.sent.value.detail;
      assert KeysTellApart(given) ==> g.detail == h.detail;
    }
  }

  // ---- exactly once ----

  function Copies(table: seq<Row>, k: (string, string)): nat {
    if table == [] then 0
    else Copies(table[..|table| - 1], k) + if table[|table| - 1].Key() == k then 1 else 0
  }

  /** How many inserts of a key reported success. */
  function AcceptedCopies(steps: seq<Step>, k: (string, string)): nat {
    if steps == [] then 0
    else
      var i := |steps| - 1;
      AcceptedCopies(steps[..i], k) + if Accepted(steps, i) && steps[i].row.Key() == k then 1 else 0
  }

  /** Every report is true and no local delete fails; central inserts may fail, and passes may be cut short. */
  predicate Truthful(a: Step) {
    match a
    case Insert(_, c, l) => c != Some(DoneUnreported) && l != Some(DoneUnreported)
    case Upload(x) => x != Sent(DoneUnreported)
    case Delete(x) => x.Applied()
    case Fetch(_) => true
  }

  function Pending(s: Stores, k: (string, string)): nat {
    if s.sent.Some? && s.sent.value.Key() == k then 1 else 0
  }

  lemma {:induction false} CopiesJoin(a: seq<Row>, b: seq<Row>, k: (string, string))
    ensures Copies(a + b, k) == Copies(a, k) + Copies(b, k)
  {
    if b == [] {
      assert a + b == a;
    } else {
      assert (a + b)[..|a + b| - 1] == a + b[..|b| - 1];
      CopiesJoin(a, b[..|b| - 1], k);
    }
  }

  lemma {:induction false} CopiesWithout(table: seq<Row>, k: (string, string), gone: (string, string))
    ensures Copies(Without(table, gone), k) == if k == gone then 0 else Copies(table, k)
  {
    if table != [] {
      var front, last := table[..|table| - 1], table[|table| - 1];
      CopiesWithout(front, k, gone);
      if last.Key() != gone {
        assert (Without(front, gone) + [last])[..|Without(front, gone)|] == Without(front, gone);
      }
    }
  }

  lemma Cancel(a: multiset<Row>, b: multiset<Row>, c: multiset<Row>)
    requires a + c == b + c
    ensures a == b
  {
    forall x ensures a[x] == b[x] {
      assert (a + c)[x] == (b + c)[x];
    }
  }

  lemma {:induction false} CopiesOfSame(a: seq<Row>, b: seq<Row>, k: (string, string))
    requires multiset(a) == multiset(b)
    ensures Copies(a, k) == Copies(b, k)
  {
    if a == [] {
      assert |multiset(b)| == |b| == 0;
    } else {
      var front, last := a[..|a| - 1], a[|a| - 1];
      assert a == front + [last];
      assert last in multiset(b);
      var j :| 0 <= j < |b| && b[j] == last;
      assert b == b[..j] + [b[j]] + b[j + 1..];
      assert multiset(b) == multiset(b[..j] + b[j + 1..]) + multiset{last};
      assert multiset(a) == multiset(front) + multiset{last};
      Cancel(multiset(front), multiset(b[..j] + b[j + 1..]), multiset{last});
      CopiesOfSame(front, b[..j] + b[j + 1..], k);
      CopiesWithoutOne(b, j, k);
    }
  }

  lemma CopiesWithoutOne(b: seq<Row>, j: nat, k: (string, string))
    requires j < |b|
    ensures Copies(b, k) == Copies(b[..j] + b[j + 1..], k) + if b[j].Key() == k then 1 else 0
  {
    assert b == b[..j] + [b[j]] + b[j + 1..];
    OneMore(b[..j], b[j], k);
    CopiesJoin(b[..j] + [b[j]], b[j + 1..], k);
    CopiesJoin(b[..j], b[j + 1..], k);
  }

  /** The balance of one key: rows in both tables against accepted inserts, an uploaded row counting
      twice until it is deleted. */
  predicate Balanced(s: Stores, k: (string, string), accepted: nat) {
    && Copies(s.central, k) + Copies(s.local, k) == accepted + Pending(s, k)
    && Copies(s.queue, k) + Pending(s, k) <= Copies(s.local, k)
    && Pending(s, k) <= Copies(s.central, k)
  }

  lemma OneMore(table: seq<Row>, r: Row, k: (string, string))
    ensures Copies(table + [r], k) == Copies(table, k) + if r.Key() == k then 1 else 0
  {
    assert (table + [r])[..|table|] == table;
  }

  /** The accepted inserts of a key after one more step. */
  function Tally(accepted: nat, a: Step, k: (string, string)): nat {
    accepted + if Accepted([a], 0) && a.row.Key() == k then 1 else 0
  }

  lemma BalanceInsert(s: Stores, a: Step, k: (string, string), accepted: nat)
    requires a.Insert? && Truthful(a) && Balanced(s, k, accepted)
    ensures Balanced(Next(s, a), k, Tally(accepted, a, k))
  {
    hide Copies;
    OneMore(s.central, a.row, k);
    OneMore(s.local, a.row.Local(), k);
  }

  lemma BalanceUpload(s: Stores, x: Answer, k: (string, string), accepted: nat)
    requires x != DoneUnreported && Balanced(s, k, accepted) && accepted <= 1
    ensures Balanced(Next(s, Upload(Sent(x))), k, accepted)
  {
    hide Copies;
    if s.queue != [] {
      OneMore(s.central, s.queue[0].Uploaded(), k);
      CopiesWithoutOne(s.queue, 0, k);
      assert s.queue[..0] + s.queue[1..] == s.queue[1..];
    }
  }

  lemma BalanceNext(s: Stores, a: Step, k: (string, string), accepted: nat)
    requires Truthful(a) && Balanced(s, k, accepted) && Tally(accepted, a, k) <= 1
    ensures Balanced(Next(s, a), k, Tally(accepted, a, k))
  {
    match a
    case Insert(_, _, _) => BalanceInsert(s, a, k, accepted);
    case Fetch(rows) =>
      if multiset(rows) == multiset(s.local) { CopiesOfSame(rows, s.local, k); }
    case Upload(Unreadable) =>
    case Upload(Sent(x)) => BalanceUpload(s, x, k, accepted);
    case Delete(x) =>
      if s.sent.Some? { CopiesWithout(s.local, k, s.sent.value.Key()); }
  }

  lemma {:induction false} RunBalanced(steps: seq<Step>, k: (string, string))
    requires (forall i | 0 <= i < |steps| :: Truthful(steps[i])) && AcceptedCopies(steps, k) <= 1
    ensures Balanced(Run(EMPTY, steps), k, AcceptedCopies(steps, k))
  {
    if steps != [] {
      var before, a := steps[..|steps| - 1], steps[|steps| - 1];
      RunBalanced(before, k);
      assert Accepted(steps, |steps| - 1) == Accepted([a], 0);
      BalanceNext(Run(EMPTY, before), a, k, AcceptedCopies(before, k));
    }
  }

  /** With true reports and working deletes, whatever inserts fail: a key accepted once has exactly
      one row in the two tables whenever no delete is outstanding, and a key never accepted has none. */
  lemma ExactlyOnce(steps: seq<Step>, k: (string, string))
    requires (forall i | 0 <= i < |steps| :: Truthful(steps[i])) && AcceptedCopies(steps, k) <= 1
    requires Run(EMPTY, steps).sent.None?
    ensures var s := Run(EMPTY, steps); Copies(s.central, k) + Copies(s.local, k) == AcceptedCopies(steps, k)
  {
    RunBalanced(steps, k);
  }

  /** An offline transaction whose first upload takes effect without being reported, or is not followed by a
      working delete, and which is uploaded again by the next pass. */
  function TwiceRun(r: Row, unreported: bool): seq<Step> {
    [Insert(r, None, Some(Done)), Fetch([r.Local()]), Upload(Sent(if unreported then DoneUnreported else Done)),
     Delete(NotDone), Fetch([r.Local()]), Upload(Sent(Done)), Delete(Done)]
  }

  /** True reports and working deletes are needed: without either, a transaction accepted once ends up in the
      central table twice. */
  lemma TwiceCentral(r: Row, unreported: bool)
    ensures var s := Run(EMPTY, TwiceRun(r, unreported));
            && AcceptedCopies(TwiceRun(r, unreported), r.Key()) == 1
            && s.Quiet() && s.local == [] && Copies(s.central, r.Key()) == 2
  {
    hide AcceptedCopies, Copies, Without, Next, TwiceRun;
    var l, x, u := TwiceRun(r, unreported), r.Local(), r.Local().Uploaded();
    var again := Stores([u], [x], [], None, 1);
    TwiceBegins(r, unreported);
    TwiceEnds(r, again);
    var twice := again.(central := [u] + [u], sent := Some(x));
    TwiceIs(r, unreported);
    RunExtends(EMPTY, l, 4, again);
    RunExtends(EMPTY, l, 5, again.(queue := [x]));
    RunExtends(EMPTY, l, 6, twice);
    assert l[..7] == l;
    NoCopies(r.Key());
    OneMore([], u, r.Key());
    OneMore([u], u, r.Key());
    assert [] + [u] == [u];
    AcceptedOnce(r, unreported);
  }

  lemma NoCopies(k: (string, string))
    ensures Copies([], k) == 0
  {
  }

  /** The first upload, step by step. */
  lemma TwiceStarts(r: Row, unreported: bool)
    ensures var x, u := r.Local(), r.Local().Uploaded();
            var waiting := Stores([], [x], [], None, 1);
            var once := waiting.(central := [u], sent := if unreported then None else Some(x));
            && Next(EMPTY, Insert(r, None, Some(Done))) == waiting
            && Next(waiting, Fetch([x])) == waiting.(queue := [x])
            && Next(waiting.(queue := [x]), Upload(Sent(if unreported then DoneUnreported else Done))) == once
            && Next(once, Delete(NotDone)) == waiting.(central := [u])
  {
  }

  lemma TwiceIs(r: Row, unreported: bool)
    ensures var l := TwiceRun(r, unreported);
            && |l| == 7 && l[0] == Insert(r, None, Some(Done)) && l[1] == Fetch([r.Local()])
            && l[2] == Upload(Sent(if unreported then DoneUnreported else Done)) && l[3] == Delete(NotDone)
            && l[4] == Fetch([r.Local()]) && l[5] == Upload(Sent(Done)) && l[6] == Delete(Done)
            && Run(EMPTY, l[..0]) == EMPTY
  {
  }

  /** After the first upload the row is in both tables. */
  lemma TwiceBegins(r: Row, unreported: bool)
    ensures Run(EMPTY, TwiceRun(r, unreported)[..4]) == Stores([r.Local().Uploaded()], [r.Local()], [], None, 1)
  {
    hide Next, Run, TwiceRun;
    var l, x, u := TwiceRun(r, unreported), r.Local(), r.Local().Uploaded();
    var waiting := Stores([], [x], [], None, 1);
    TwiceStarts(r, unreported);
    TwiceIs(r, unreported);
    RunExtends(EMPTY, l, 0, EMPTY);
    RunExtends(EMPTY, l, 1, waiting);
    RunExtends(EMPTY, l, 2, waiting.(queue := [x]));
    RunExtends(EMPTY, l, 3, waiting.(central := [u], sent := if unreported then None else Some(x)));
  }

  /** The second upload and its delete. */
  lemma TwiceEnds(r: Row, s: Stores)
    requires s == Stores([r.Local().Uploaded()], [r.Local()], [], None, 1)
    ensures var x, u := r.Local(), r.Local().Uploaded();
            && Next(s, Fetch([x])) == s.(queue := [x])
            && Next(s.(queue := [x]), Upload(Sent(Done))) == s.(central := [u] + [u], sent := Some(x))
            && Next(s.(central := [u] + [u], sent := Some(x)), Delete(Done)) == s.(central := [u] + [u], local := [])
  {
    WithoutItself(r.Local());
  }

  lemma WithoutItself(x: Row)
    ensures Without([x], x.Key()) == []
  {
    assert [x][..0] == [];
  }

  lemma AcceptedOnce(r: Row, unreported: bool)
    ensures AcceptedCopies(TwiceRun(r, unreported), r.Key()) == 1
  {
    var l := TwiceRun(r, unreported);
    var k := r.Key();
    NotAccepted(l, 6, k);
    NotAccepted(l, 5, k);
    NotAccepted(l, 4, k);
    NotAccepted(l, 3, k);
    NotAccepted(l, 2, k);
    NotAccepted(l, 1, k);
    assert l[..7] == l;
    var first := l[..1];
    assert first[..0] == [] && AcceptedCopies([], k) == 0 && Accepted(first, 0);
    assert AcceptedCopies(first, k) == AcceptedCopies(first[..0], k) + 1;
  }

  /** A step that is no accepted insert does not count. */
  lemma NotAccepted(steps: seq<Step>, n: nat, k: (string, string))
    requires n < |steps| && !steps[n].Insert?
    ensures AcceptedCopies(steps[..n + 1], k) == AcceptedCopies(steps[..n], k)
  {
    assert steps[..n + 1][..n] == steps[..n];
  }

  // ---- a pass without failures ----

  predicate Clean(x: RowAnswers) { x.upload == Sent(Done) && x.delete.Applied() }

  /** The rows of a table without their entry LPN ids. */
  function UploadedRows(rows: seq<Row>): seq<Row> {
    if rows == [] then []
    else
      var r := rows[|rows| - 1];
      UploadedRows(rows[..|rows| - 1]) + [Row(r.iu, r.time, r.detail, r.vcc, "")]
  }

  /** What is left of a table when every row with the key of one of these is gone. */
  predicate Cleared(now: seq<Row>, before: seq<Row>, gone: seq<Row>) {
    forall r | r in now :: r in before && r !in gone
  }

  lemma ClearedMore(s: seq<Row>, before: seq<Row>, rows: seq<Row>, n: nat)
    requires n < |rows| && Cleared(s, before, rows[..n])
    ensures Cleared(Without(s, rows[n].Key()), before, rows[..n + 1])
  {
    assert rows[..n + 1] == rows[..n] + [rows[n]];
    forall r | r in Without(s, rows[n].Key()) ensures r in before && r !in rows[..n + 1] {
      WithoutKeepsOthers(s, rows[n].Key(), r);
    }
  }

  lemma UploadedMore(rows: seq<Row>, n: nat)
    requires n < |rows|
    ensures UploadedRows(rows[..n + 1]) == UploadedRows(rows[..n]) + [rows[n].Uploaded()]
  {
    assert rows[..n + 1][..n] == rows[..n];
  }

  /** The stores when the first n rows have been moved. */
  predicate Moved(s: Stores, t: Stores, rows: seq<Row>, n: nat)
    requires n <= |rows|
  {
    && t.sent.None? && t.queue == rows[n..] && t.central == s.central + UploadedRows(rows[..n])
    && Cleared(t.local, s.local, rows[..n])
  }

  lemma MovedMore(s: Stores, t: Stores, rows: seq<Row>, n: nat, x: RowAnswers)
    requires n < |rows| && Moved(s, t, rows, n) && Clean(x)
    ensures Moved(s, RowDone(t, x), rows, n + 1)
  {
    assert t.queue[0] == rows[n] && t.queue[1..] == rows[n + 1..];
    UploadedMore(rows, n);
    ClearedMore(t.local, s.local, rows, n);
  }

  lemma {:induction false} CleanPrefix(s: Stores, rows: seq<Row>, xs: seq<RowAnswers>, n: nat)
    requires s.queue == rows && s.sent.None? && n <= |rows| == |xs| && forall i | 0 <= i < n :: Clean(xs[i])
    ensures Moved(s, Run(s, PassSteps(xs, n)), rows, n)
  {
    if n > 0 {
      CleanPrefix(s, rows, xs, n - 1);
      PassStep(s, xs, n - 1);
      MovedMore(s, Run(s, PassSteps(xs, n - 1)), rows, n - 1, xs[n - 1]);
    }
  }

  lemma SameRows(a: seq<Row>, b: seq<Row>)
    requires multiset(a) == multiset(b)
    ensures forall x :: x in a <==> x in b
  {
    forall x ensures x in a <==> x in b {
      assert x in multiset(a) <==> x in multiset(b);
    }
  }

  lemma HasFirst(a: seq<Row>)
    ensures a != [] ==> a[0] in a
  {
  }

  /** A pass in which nothing fails empties the local table into the central one, even when rows share keys. */
  lemma CleanPassMovesEverything(s: Stores, rows: seq<Row>, xs: seq<RowAnswers>)
    requires s.Quiet() && multiset(rows) == multiset(s.local) && |xs| == |rows|
    requires forall i | 0 <= i < |xs| :: Clean(xs[i])
    ensures var t := Run(s, [Fetch(rows)] + PassSteps(xs, |rows|));
            t.Quiet() && t.local == [] && t.central == s.central + UploadedRows(rows)
  {
    RunJoinsOne(s, Fetch(rows));
    RunJoins(s, [Fetch(rows)], PassSteps(xs, |rows|));
    CleanPrefix(Next(s, Fetch(rows)), rows, xs, |rows|);
    assert rows[..|rows|] == rows;
    var t := Run(s, [Fetch(rows)] + PassSteps(xs, |rows|));
    SameRows(rows, s.local);
    HasFirst(t.local);
  }
}
