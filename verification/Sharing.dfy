/** Which trees make every decision agree: those where each node is wanted at one
    precedence only, which holds of all trees without shared nodes. */
module Sharing {
  import opened Tokens
  import opened Scripts
  import opened Faithful

  /** A context wants a precedence of a node. */
  datatype Want = Want(id: nat, level: Level)

  function Wants(c: Place, d: Script): set<Want>
    decreases d
  {
    match d
    case Then(a, b) => Wants(c, a) + Wants(c, b)
    case Parens(b) => Wants(c, b)
    case Buffered(b) => Wants(c, b)
    case Key(b) => Wants(c, b)
    case Asking(ids, p, b) => (set i | i in ids :: Want(i, p)) + Wants(c.Ask(ids, p), b)
    case Node(id, _, b) => {Want(id, c.Wanted(id))} + Wants(c.Forget(), b)
    case Indented(b) => Wants(c, b)
    case TryKind(_, b) => Wants(c, b)
    case _ => {}
  }

  /** The nodes a script visits, or asks a precedence of. */
  function Ids(d: Script): set<nat> {
    match d
    case Then(a, b) => Ids(a) + Ids(b)
    case Parens(b) => Ids(b)
    case Buffered(b) => Ids(b)
    case Key(b) => Ids(b)
    case Asking(ids, _, b) => (set i | i in ids) + Ids(b)
    case Node(id, _, b) => {id} + Ids(b)
    case Indented(b) => Ids(b)
    case TryKind(_, b) => Ids(b)
    case _ => {}
  }

  /** The nodes visited directly, not from inside another. */
  function Tops(d: Script): set<nat> {
    match d
    case Then(a, b) => Tops(a) + Tops(b)
    case Parens(b) => Tops(b)
    case Buffered(b) => Tops(b)
    case Key(b) => Tops(b)
    case Node(id, _, _) => {id}
    case _ => {}
  }

  /** No node is visited twice, and a precedence is asked of none that only some other
      node's visit reaches. */
  predicate Unshared(d: Script) {
    match d
    case Then(a, b) => Unshared(a) && Unshared(b) && Ids(a) !! Ids(b)
    case Parens(b) => Unshared(b)
    case Buffered(b) => Unshared(b)
    case Key(b) => Unshared(b)
    case Asking(ids, _, b) => Unshared(b) && forall i :: i in ids && i in Ids(b) ==> i in Tops(b)
    case Node(id, _, b) => id !in Ids(b) && Unshared(b)
    case Indented(b) => Unshared(b)
    case TryKind(_, b) => Unshared(b)
    case _ => true
  }

  /** No node is wanted at two precedences. */
  ghost predicate OneEach(ws: set<Want>) {
    forall a, b :: a in ws && b in ws && a.id == b.id ==> a.level == b.level
  }

  /** The dictionary has no other precedence for these nodes. */
  ghost predicate Holds(m: Precedences, ws: set<Want>) {
    forall w :: w in ws && w.id in m ==> m[w.id] == w.level
  }

  lemma {:induction false} TopsWanted(c: Place, d: Script, id: nat)
    requires id in Tops(d)
    ensures Want(id, c.Wanted(id)) in Wants(c, d)
    decreases d
  {
    match d
    case Then(a, b) => if id in Tops(a) { TopsWanted(c, a, id); } else { TopsWanted(c, b, id); }
    case Parens(b) => TopsWanted(c, b, id);
    case Buffered(b) => TopsWanted(c, b, id);
    case Key(b) => TopsWanted(c, b, id);
    case _ =>
  }

  lemma AskedHolds(m: Precedences, ws: set<Want>, c: Place, ids: seq<nat>, p: Level, b: Script)
    requires Wants(c, Asking(ids, p, b)) <= ws && OneEach(ws) && Holds(m, ws)
    ensures Holds(m + Given(ids, p), ws)
  {
    forall i | i in ids ensures Want(i, p) in ws {
      assert Want(i, p) in Wants(c, Asking(ids, p, b));
    }
  }

  /** Asking one precedence of each node, a script decides as every context wants, and
      what it leaves in the dictionary is again no other precedence. */
  lemma {:induction false} OneEachAgrees(m: Precedences, ws: set<Want>, c: Place, d: Script)
    requires Wants(c, d) <= ws && OneEach(ws) && Holds(m, ws)
    requires forall i :: i in c.ids ==> i in m
    ensures Agrees(Dictionary(m), Context, c, d) && Holds(m + Entries(d), ws)
    decreases d
  {
    hide OneEach;
    match d
    case Then(a, b) =>
      OneEachAgrees(m, ws, c, a);
      OneEachAgrees(m + Entries(a), ws, c, b);
      Merged(m, Entries(a), Entries(b));
    case Parens(b) => OneEachAgrees(m, ws, c, b);
    case Buffered(b) => OneEachAgrees(m, ws, c, b);
    case Key(b) => OneEachAgrees(m, ws, c, b);
    case Asking(ids, p, b) =>
      AskedHolds(m, ws, c, ids, p, b);
      OneEachAgrees(m + Given(ids, p), ws, c.Ask(ids, p), b);
      Merged(m, Given(ids, p), Entries(b));
    case Node(id, own, b) =>
      assert Want(id, c.Wanted(id)) in ws;
      OneEachAgrees(m, ws, c.Forget(), b);
    case Indented(b) =>
      SameWants(c, c.(indent := c.indent + 1), b);
      OneEachAgrees(m, ws, c.(indent := c.indent + 1), b);
    case TryKind(star, b) =>
      SameWants(c, c.(star := star), b);
      OneEachAgrees(m, ws, c.(star := star), b);
    case _ => assert m + Entries(d) == m;
  }

  lemma {:induction false} SameWants(c: Place, c': Place, d: Script)
    requires c.ids == c'.ids && c.level == c'.level
    ensures Wants(c, d) == Wants(c', d)
    decreases d
  {
    match d
    case Then(a, b) => SameWants(c, c', a); SameWants(c, c', b);
    case Parens(b) => SameWants(c, c', b);
    case Buffered(b) => SameWants(c, c', b);
    case Key(b) => SameWants(c, c', b);
    case Asking(ids, p, b) => SameWants(c.Ask(ids, p), c'.Ask(ids, p), b);
    case Node(_, _, b) => SameWants(c.Forget(), c'.Forget(), b);
    case Indented(b) => SameWants(c, c', b);
    case TryKind(_, b) => SameWants(c, c', b);
    case _ =>
  }

  lemma {:induction false} UnsharedOneEach(c: Place, d: Script)
    requires Unshared(d)
    ensures OneEach(Wants(c, d))
    decreases d
  {
    match d
    case Then(a, b) =>
      UnsharedOneEach(c, a);
      UnsharedOneEach(c, b);
      WantsWithin(c, a);
      WantsWithin(c, b);
    case Parens(b) => UnsharedOneEach(c, b);
    case Buffered(b) => UnsharedOneEach(c, b);
    case Key(b) => UnsharedOneEach(c, b);
    case Asking(ids, p, b) =>
      var k := c.Ask(ids, p);
      UnsharedOneEach(k, b);
      WantsWithin(k, b);
      forall w | w in Wants(k, b) && w.id in ids ensures w.level == p {
        TopsWanted(k, b, w.id);
      }
    case Node(id, _, b) => UnsharedOneEach(c.Forget(), b); WantsWithin(c.Forget(), b);
    case Indented(b) => UnsharedOneEach(c, b);
    case TryKind(_, b) => UnsharedOneEach(c, b);
    case _ =>
  }

  lemma {:induction false} WantsWithin(c: Place, d: Script)
    ensures forall w :: w in Wants(c, d) ==> w.id in Ids(d)
    decreases d
  {
    match d
    case Then(a, b) => WantsWithin(c, a); WantsWithin(c, b);
    case Parens(b) => WantsWithin(c, b);
    case Buffered(b) => WantsWithin(c, b);
    case Key(b) => WantsWithin(c, b);
    case Asking(ids, p, b) => WantsWithin(c.Ask(ids, p), b);
    case Node(_, _, b) => WantsWithin(c.Forget(), b);
    case Indented(b) => WantsWithin(c, b);
    case TryKind(_, b) => WantsWithin(c, b);
    case _ =>
  }

  /** A visit leaves the dictionary's other entries alone. */
  lemma {:induction false} EntriesWithin(d: Script)
    ensures forall i :: i in Entries(d) ==> i in Ids(d)
  {
    match d
    case Then(a, b) => EntriesWithin(a); EntriesWithin(b);
    case Parens(b) => EntriesWithin(b);
    case Buffered(b) => EntriesWithin(b);
    case Key(b) => EntriesWithin(b);
    case Asking(ids, p, b) => EntriesWithin(b);
    case Node(_, _, b) => EntriesWithin(b);
    case Indented(b) => EntriesWithin(b);
    case TryKind(_, b) => EntriesWithin(b);
    case _ =>
  }

  /* ----- what makes a run fail ----- */

  predicate Refuses(d: Script) {
    match d
    case Refuse => true
    case Then(a, b) => Refuses(a) || Refuses(b)
    case Parens(b) => Refuses(b)
    case Buffered(b) => Refuses(b)
    case Key(b) => Refuses(b)
    case Asking(_, _, b) => Refuses(b)
    case Node(_, _, b) => Refuses(b)
    case Indented(b) => Refuses(b)
    case TryKind(_, b) => Refuses(b)
    case _ => false
  }

  /** No integer of the text has more digits than the interpreter writes. */
  ghost predicate Short(limit: nat, ts: seq<Token>) {
    forall t :: t in ts && t.Lit? ==> !TooLong(limit, t.c)
  }

  lemma ShortJoin(limit: nat, a: seq<Token>, b: seq<Token>)
    ensures Short(limit, a + b) == (Short(limit, a) && Short(limit, b))
  {
    if Short(limit, a + b) {
      forall t | t in a && t.Lit? ensures !TooLong(limit, t.c) { assert t in a + b; }
      forall t | t in b && t.Lit? ensures !TooLong(limit, t.c) { assert t in a + b; }
    }
  }

  lemma ShortWrap(limit: nat, parens: bool, a: seq<Token>)
    ensures Short(limit, Left(parens) + a + Right(parens)) == Short(limit, a)
  {
    ShortJoin(limit, Left(parens) + a, Right(parens));
    ShortJoin(limit, Left(parens), a);
  }

  /** A script fails exactly when it refuses or its text has too long an integer. */
  lemma {:induction false} FailsIs(limit: nat, j: Judge, c: Place, d: Script)
    ensures Fails(limit, d) == (Refuses(d) || !Short(limit, Text(j, c, d)))
    decreases d
  {
    match d
    case Literal(k) => assert Lit(k) in [Lit(k)];
    case Then(a, b) =>
      FailsIs(limit, j, c, a);
      FailsIs(limit, j.Later(a), c, b);
      ShortJoin(limit, Text(j, c, a), Text(j.Later(a), c, b));
    case Parens(b) =>
      FailsIs(limit, j, c, b);
      ShortWrap(limit, true, Text(j, c, b));
    case Buffered(b) => FailsIs(limit, j, c, b);
    case Key(b) => FailsIs(limit, j, c, b);
    case Asking(ids, p, b) => FailsIs(limit, j.Told(ids, p), c.Ask(ids, p), b);
    case Node(id, own, b) =>
      FailsIs(limit, j, c.Forget(), b);
      ShortWrap(limit, j.Level(c, id) > own, Text(j, c.Forget(), b));
    case Indented(b) => FailsIs(limit, j, c.(indent := c.indent + 1), b);
    case TryKind(star, b) => FailsIs(limit, j, c.(star := star), b);
    case _ =>
  }
}
