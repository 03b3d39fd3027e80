/** What a visit does, as data: it writes tokens, asks precedences of nodes, and puts
    parentheses by what it finds in the dictionary. A script is run from a moment in the
    life of an unparser; its text can also be read off as every context means it. */
module Scripts {
  import opened Options
  import opened PyAst
  import opened Tokens

  type Precedences = map<nat, Level>

  datatype Script =
    | Nothing
    | Put(ts: seq<Mark>)
    | Literal(c: Const)
    | Refuse
    | NewLine(ts: seq<Mark>)
    | GroupStar
    | Then(first: Script, second: Script)
    | Parens(inner: Script)
    | Buffered(inner: Script)
    | Key(inner: Script)      // a key of a mapping pattern, which the grammar allows no parentheses
    | Asking(ids: seq<nat>, level: Level, inner: Script)
    | Node(id: nat, own: Level, inner: Script)
    | Indented(inner: Script)
    | TryKind(star: bool, inner: Script)

  /** The unparser's fields; `limit` is the interpreter's longest decimal integer, or 0. */
  datatype Moment = Moment(source: seq<Token>, precedences: Precedences, indent: nat, inTryStar: bool, limit: nat)

  datatype Run = Run(after: Moment, outcome: Outcome)

  function Digits(n: nat): (r: nat)
    ensures r >= 1
  {
    if n < 10 then 1 else Digits(n / 10) + 1
  }

  /** Only integers are too long to be written. */
  predicate TooLong(limit: nat, c: Const) {
    limit > 0 && c.Int? && Digits(c.n) > limit
  }

  function Find(m: Precedences, id: nat): Level {
    if id in m then m[id] else TEST
  }

  /** The entries that ask precedence `p` of each of some nodes. */
  function Given(ids: seq<nat>, p: Level): Precedences {
    map i | i in ids :: p
  }

  function Left(parens: bool): seq<Token> {
    if parens then [LPar] else []
  }

  function Right(parens: bool): seq<Token> {
    if parens then [RPar] else []
  }

  function Append(s: Moment, ts: seq<Token>): Moment {
    s.(source := s.source + ts)
  }

  function Tell(s: Moment, ids: seq<nat>, p: Level): Moment {
    s.(precedences := s.precedences + Given(ids, p))
  }

  /** Runs a script; an exception ends it where it is raised. */
  function Done(s: Moment, d: Script): Run
    decreases d, 0
  {
    match d
    case Nothing => Run(s, Returned)
    case Put(ts) => Run(Append(s, ts), Returned)
    case Literal(c) => if TooLong(s.limit, c) then Run(s, Raised) else Run(Append(s, [Lit(c)]), Returned)
    case Refuse => Run(s, Raised)
    case NewLine(ts) => Run(Append(s, [Line(s.indent)] + ts), Returned)
    case GroupStar => Run(if s.inTryStar then Append(s, [Op(Mult)]) else s, Returned)
    case Then(a, b) => After(Done(s, a), b)
    case Parens(b) => Closed(Done(Append(s, Left(true)), b), true)
    case Buffered(b) =>
      var r := Done(s.(source := []), b);
      if r.outcome.Raised? then r else Run(r.after.(source := s.source + r.after.source), Returned)
    case Key(b) => Done(s, b)
    case Asking(ids, p, b) => Done(Tell(s, ids, p), b)
    case Node(id, own, b) =>
      var parens := Find(s.precedences, id) > own;
      Closed(Done(Append(s, Left(parens)), b), parens)
    case Indented(b) =>
      var r := Done(s.(indent := s.indent + 1), b);
      if r.outcome.Raised? then r else Run(r.after.(indent := s.indent), Returned)
    case TryKind(star, b) => PutBack(Done(s.(inTryStar := star), b), s.inTryStar)
  }

  function After(r: Run, d: Script): Run
    decreases d, 1
  {
    if r.outcome.Raised? then r else Done(r.after, d)
  }

  /** The kind of the enclosing `try`, whatever happened inside. */
  function PutBack(r: Run, star: bool): Run {
    Run(r.after.(inTryStar := star), r.outcome)
  }

  /** The closing parenthesis is not reached by an exception. */
  function Closed(r: Run, parens: bool): Run {
    if r.outcome.Raised? then r else Run(Append(r.after, Right(parens)), Returned)
  }

  lemma DoneThen(s: Moment, a: Script, b: Script)
    ensures Done(s, Then(a, b)) == After(Done(s, a), b)
  {
    hide Given, Append, Closed, Find, TooLong, After;
  }

  lemma DoneNothing(s: Moment)
    ensures Done(s, Nothing) == Run(s, Returned)
  {
  }

  lemma DoneParens(s: Moment, b: Script)
    ensures Done(s, Parens(b)) == Closed(Done(Append(s, Left(true)), b), true)
  {
    hide Given, Append, Closed, Find, TooLong, After;
  }

  lemma DoneNode(s: Moment, id: nat, own: Level, b: Script)
    ensures var parens := Find(s.precedences, id) > own;
            Done(s, Node(id, own, b)) == Closed(Done(Append(s, Left(parens)), b), parens)
  {
    hide Given, Append, Closed, Find, TooLong, After;
  }

  /** What prints at the highest level is never in parentheses. */
  lemma DoneAtom(s: Moment, id: nat, b: Script)
    ensures Done(s, Node(id, ATOM, b)) == Done(s, b)
  {
    DoneNode(s, id, ATOM, b);
    assert Append(s, Left(false)) == s;
    hide Done;
    var r := Done(s, b);
    assert Append(r.after, Right(false)) == r.after;
  }

  lemma DoneAsking(s: Moment, ids: seq<nat>, p: Level, b: Script)
    ensures Done(s, Asking(ids, p, b)) == Done(Tell(s, ids, p), b)
  {
    hide Tell, Append, Closed, Find, TooLong, After;
  }

  lemma DoneBuffered(s: Moment, b: Script)
    ensures var r := Done(s.(source := []), b);
            Done(s, Buffered(b)) ==
            if r.outcome.Raised? then r else Run(r.after.(source := s.source + r.after.source), Returned)
  {
    hide Given, Append, Closed, Find, TooLong, After;
  }

  lemma DoneKey(s: Moment, b: Script)
    ensures Done(s, Key(b)) == Done(s, b)
  {
    hide Given, Append, Closed, Find, TooLong, After;
  }

  lemma DoneIndented(s: Moment, b: Script)
    ensures var r := Done(s.(indent := s.indent + 1), b);
            Done(s, Indented(b)) ==
            if r.outcome.Raised? then r else Run(r.after.(indent := s.indent), Returned)
  {
    hide Given, Append, Closed, Find, TooLong, After;
  }

  lemma DoneTry(s: Moment, star: bool, b: Script)
    ensures Done(s, TryKind(star, b)) == PutBack(Done(s.(inTryStar := star), b), s.inTryStar)
  {
    hide Given, Append, Closed, Find, TooLong, After, Tell, Left, Right, PutBack;
  }

  /* ----- the same without the moment: text, dictionary and failure apart ----- */

  /** Where a script stands: the precedence asked of some nodes, and the surroundings. */
  datatype Place = Place(ids: seq<nat>, level: Level, indent: nat, star: bool) {
    /** The precedence the context of a node wants: what its parent asked, or `TEST`. */
    function Wanted(id: nat): Level {
      if id in ids then level else TEST
    }

    function Ask(ids': seq<nat>, p: Level): Place {
      this.(ids := ids', level := p)
    }

    function Forget(): Place {
      this.(ids := [], level := TEST)
    }
  }

  /** Who decides on parentheses: the dictionary, or what each context wants. */
  datatype Judge = Dictionary(m: Precedences) | Context {
    function Level(c: Place, id: nat): Level {
      if Context? then c.Wanted(id) else Find(m, id)
    }

    function Told(ids: seq<nat>, p: Level): Judge {
      if Context? then this else Dictionary(m + Given(ids, p))
    }

    function Later(d: Script): Judge {
      if Context? then this else Dictionary(m + Entries(d))
    }
  }

  /** What a script puts in the dictionary. */
  function Entries(d: Script): Precedences {
    match d
    case Then(a, b) => Entries(a) + Entries(b)
    case Parens(b) => Entries(b)
    case Buffered(b) => Entries(b)
    case Key(b) => Entries(b)
    case Asking(ids, p, b) => Given(ids, p) + Entries(b)
    case Node(_, _, b) => Entries(b)
    case Indented(b) => Entries(b)
    case TryKind(_, b) => Entries(b)
    case _ => map[]
  }

  function Text(j: Judge, c: Place, d: Script): seq<Token>
    decreases d
  {
    match d
    case Nothing => []
    case Put(ts) => ts
    case Literal(k) => [Lit(k)]
    case Refuse => []
    case NewLine(ts) => [Line(c.indent)] + ts
    case GroupStar => if c.star then [Op(Mult)] else []
    case Then(a, b) => Text(j, c, a) + Text(j.Later(a), c, b)
    case Parens(b) => [LPar] + Text(j, c, b) + [RPar]
    case Buffered(b) => Text(j, c, b)
    case Key(b) => Text(j, c, b)
    case Asking(ids, p, b) => Text(j.Told(ids, p), c.Ask(ids, p), b)
    case Node(id, own, b) =>
      var parens := j.Level(c, id) > own;
      Left(parens) + Text(j, c.Forget(), b) + Right(parens)
    case Indented(b) => Text(j, c.(indent := c.indent + 1), b)
    case TryKind(star, b) => Text(j, c.(star := star), b)
  }

  /** A script fails on what it refuses and on integers that are too long. */
  predicate Fails(limit: nat, d: Script) {
    match d
    case Literal(c) => TooLong(limit, c)
    case Refuse => true
    case Then(a, b) => Fails(limit, a) || Fails(limit, b)
    case Parens(b) => Fails(limit, b)
    case Buffered(b) => Fails(limit, b)
    case Key(b) => Fails(limit, b)
    case Asking(_, _, b) => Fails(limit, b)
    case Node(_, _, b) => Fails(limit, b)
    case Indented(b) => Fails(limit, b)
    case TryKind(_, b) => Fails(limit, b)
    case _ => false
  }

  function PlaceOf(s: Moment): Place {
    Place([], TEST, s.indent, s.inTryStar)
  }

  /** The dictionary's judgment does not depend on what the context wants. */
  lemma {:induction false} TextAnywhere(m: Precedences, c: Place, c': Place, d: Script)
    requires c.indent == c'.indent && c.star == c'.star
    ensures Text(Dictionary(m), c, d) == Text(Dictionary(m), c', d)
    decreases d
  {
    match d
    case Then(a, b) => TextAnywhere(m, c, c', a); TextAnywhere(m + Entries(a), c, c', b);
    case Parens(b) => TextAnywhere(m, c, c', b);
    case Buffered(b) => TextAnywhere(m, c, c', b);
    case Key(b) => TextAnywhere(m, c, c', b);
    case Asking(ids, p, b) => TextAnywhere(m + Given(ids, p), c.Ask(ids, p), c'.Ask(ids, p), b);
    case Node(_, _, b) => TextAnywhere(m, c.Forget(), c'.Forget(), b);
    case Indented(b) => TextAnywhere(m, c.(indent := c.indent + 1), c'.(indent := c.indent + 1), b);
    case TryKind(star, b) => TextAnywhere(m, c.(star := star), c'.(star := star), b);
    case _ =>
  }

  /** What a run comes to: it fails exactly when the script does; otherwise it appends
      the script's text, adds its entries to the dictionary, and puts everything else
      back. Even when it fails the kind of `try` is put back, and the indentation is
      never lower. */
  ghost predicate Planned(s: Moment, d: Script, r: Run) {
    && r.outcome.Raised? == Fails(s.limit, d)
    && r.after.limit == s.limit && r.after.inTryStar == s.inTryStar && r.after.indent >= s.indent
    && (r.outcome.Returned? ==>
          && r.after.source == s.source + Text(Dictionary(s.precedences), PlaceOf(s), d)
          && r.after.precedences == s.precedences + Entries(d)
          && r.after.indent == s.indent)
  }

  lemma {:induction false} DoneIs(s: Moment, d: Script)
    ensures Planned(s, d, Done(s, d))
    decreases d
  {
    hide Given, After, Find, Left, Right;
    match d
    case Then(a, b) =>
      DoneIs(s, a);
      DoneIs(Done(s, a).after, b);
      ThenIs(s, a, b);
    case Parens(b) =>
      DoneIs(Append(s, Left(true)), b);
      ParensText(s, b);
      NodePlan(s, true, d, b);
    case Buffered(b) =>
      DoneIs(s.(source := []), b);
    case Key(b) => DoneIs(s, b);
    case Asking(ids, p, b) =>
      DoneIs(Tell(s, ids, p), b);
      AskingIs(s, ids, p, b);
    case Node(id, own, b) =>
      DoneIs(Append(s, Left(Find(s.precedences, id) > own)), b);
      NodeIs(s, id, own, b);
    case Indented(b) => DoneIs(s.(indent := s.indent + 1), b);
    case TryKind(star, b) => DoneIs(s.(inTryStar := star), b);
    case _ =>
  }

  lemma Merged(m: Precedences, a: Precedences, b: Precedences)
    ensures (m + a) + b == m + (a + b)
  {
  }

  lemma ThenIs(s: Moment, a: Script, b: Script)
    requires Planned(s, a, Done(s, a)) && Planned(Done(s, a).after, b, Done(Done(s, a).after, b))
    ensures Planned(s, Then(a, b), Done(s, Then(a, b)))
  {
    DoneThen(s, a, b);
    ThenText(s.limit, Dictionary(s.precedences), PlaceOf(s), a, b);
    hide Done, Text, Entries, Fails;
    Merged(s.precedences, Entries(a), Entries(b));
    Regroup(s.source, Text(Dictionary(s.precedences), PlaceOf(s), a),
            Text(Dictionary(s.precedences + Entries(a)), PlaceOf(s), b));
  }

  lemma ThenText(limit: nat, j: Judge, c: Place, a: Script, b: Script)
    ensures var d := Then(a, b);
            && Text(j, c, d) == Text(j, c, a) + Text(j.Later(a), c, b)
            && Entries(d) == Entries(a) + Entries(b)
            && Fails(limit, d) == (Fails(limit, a) || Fails(limit, b))
  {
    hide Given, Find, TooLong, Left, Right;
  }

  lemma NodeIs(s: Moment, id: nat, own: Level, b: Script)
    requires var s' := Append(s, Left(Find(s.precedences, id) > own)); Planned(s', b, Done(s', b))
    ensures Planned(s, Node(id, own, b), Done(s, Node(id, own, b)))
  {
    hide Find, Left, Right, Planned, Given;
    NodeText(s, id, own, b);
    NodePlan(s, Find(s.precedences, id) > own, Node(id, own, b), b);
  }

  lemma NodeText(s: Moment, id: nat, own: Level, b: Script)
    ensures var j, parens, d := Dictionary(s.precedences), Find(s.precedences, id) > own, Node(id, own, b);
            && Text(j, PlaceOf(s), d) == Left(parens) + Text(j, PlaceOf(s), b) + Right(parens)
            && Entries(d) == Entries(b) && Fails(s.limit, d) == Fails(s.limit, b)
            && Done(s, d) == Closed(Done(Append(s, Left(parens)), b), parens)
  {
    DoneNode(s, id, own, b);
    hide Done, Given, Find, Left, Right;
  }

  lemma ParensText(s: Moment, b: Script)
    ensures var j, d := Dictionary(s.precedences), Parens(b);
            && Text(j, PlaceOf(s), d) == Left(true) + Text(j, PlaceOf(s), b) + Right(true)
            && Entries(d) == Entries(b) && Fails(s.limit, d) == Fails(s.limit, b)
            && Done(s, d) == Closed(Done(Append(s, Left(true)), b), true)
  {
    DoneParens(s, b);
    hide Done, Given, Find;
  }

  lemma NodePlan(s: Moment, parens: bool, d: Script, b: Script)
    requires var s' := Append(s, Left(parens)); Planned(s', b, Done(s', b)) && Done(s, d) == Closed(Done(s', b), parens)
    requires Fails(s.limit, d) == Fails(s.limit, b) && Entries(d) == Entries(b)
    requires var j := Dictionary(s.precedences);
             Text(j, PlaceOf(s), d) == Left(parens) + Text(j, PlaceOf(s), b) + Right(parens)
    ensures Planned(s, d, Done(s, d))
  {
    hide Done, Text, Entries, Fails, Left, Right;
    Regroup4(s.source, Left(parens), Text(Dictionary(s.precedences), PlaceOf(s), b), Right(parens));
  }

  lemma AskingIs(s: Moment, ids: seq<nat>, p: Level, b: Script)
    requires Planned(Tell(s, ids, p), b, Done(Tell(s, ids, p), b))
    ensures Planned(s, Asking(ids, p, b), Done(s, Asking(ids, p, b)))
  {
    hide Given, Planned;
    var m := s.precedences + Given(ids, p);
    AskingText(s, ids, p, b);
    hide Done, Text, Entries, Fails;
    TextAnywhere(m, PlaceOf(s), PlaceOf(s).Ask(ids, p), b);
    Merged(s.precedences, Given(ids, p), Entries(b));
    SamePlan(s, m, Asking(ids, p, b), b);
  }

  lemma AskingText(s: Moment, ids: seq<nat>, p: Level, b: Script)
    ensures var m, d, c := s.precedences + Given(ids, p), Asking(ids, p, b), PlaceOf(s);
            && Text(Dictionary(s.precedences), c, d) == Text(Dictionary(m), c.Ask(ids, p), b)
            && Entries(d) == Given(ids, p) + Entries(b) && Fails(s.limit, d) == Fails(s.limit, b)
            && Done(s, d) == Done(Tell(s, ids, p), b)
  {
    DoneAsking(s, ids, p, b);
    hide Done, Given;
  }

  lemma SamePlan(s: Moment, m: Precedences, d: Script, b: Script)
    requires var s' := s.(precedences := m); Planned(s', b, Done(s', b)) && Done(s, d) == Done(s', b)
    requires Fails(s.limit, d) == Fails(s.limit, b) && m + Entries(b) == s.precedences + Entries(d)
    requires Text(Dictionary(s.precedences), PlaceOf(s), d) == Text(Dictionary(m), PlaceOf(s), b)
    ensures Planned(s, d, Done(s, d))
  {
    hide Entries, Fails, Text, Done;
  }
}
