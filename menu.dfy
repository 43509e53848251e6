/**
 * The static menu graph of the IVR simulator: a table from node id to a
 * prompt and an ordered list of options, each mapping one input symbol to an
 * action. The ordered list mirrors a Python dict literal, whose keys keep
 * their insertion order when they are listed back to the caller.
 */
module MenuGraph {
  import opened Wrappers

  /** Id of the node every call starts at. */
  const Root := "main"
  /** Id of the node that accumulates PNR digits instead of looking them up. */
  const CollectNode := "flight_status"
  /** The symbol that ends digit accumulation at the collecting node. */
  const Terminator := "#"

  /**
   * The action of one option. The source stores the kind as a string in the
   * `action` field; `Unknown` stands for any string other than the four the
   * engine dispatches on.
   */
  datatype Action =
    | Goto(target: string, msg: string)
    | End(msg: string)
    | Transfer(msg: string)
    | LookupPnr(msg: string)
    | Unknown(kind: string, msg: string)

  datatype Choice = Choice(symbol: string, action: Action)

  datatype Node = Node(prompt: string, options: seq<Choice>)

  type Table = map<string, Node>

  /** The option keys of a node, in table order (Python's `list(options.keys())`). */
  function Keys(opts: seq<Choice>): (r: seq<string>)
    ensures |r| == |opts|
  {
    seq(|opts|, i requires 0 <= i < |opts| => opts[i].symbol)
  }

  /** The `i`-th key listed is the `i`-th option's symbol: keys come in table order. */
  lemma KeyAt(opts: seq<Choice>, i: nat)
    requires i < |opts|
    ensures Keys(opts)[i] == opts[i].symbol
  {
  }

  /** Python's `sym in options` followed by `options[sym]`. */
  function Lookup(opts: seq<Choice>, sym: string): (r: Option<Action>)
    ensures r.None? <==> sym !in Keys(opts)
    ensures r.Some? ==> exists i :: 0 <= i < |opts| && opts[i] == Choice(sym, r.value)
  {
    if opts == [] then None
    else if opts[0].symbol == sym then
      assert Keys(opts)[0] == sym;
      Some(opts[0].action)
    else
      var r := Lookup(opts[1..], sym);
      assert Keys(opts) == [opts[0].symbol] + Keys(opts[1..]);
      assert r.Some? ==> exists i :: 0 <= i < |opts[1..]| && opts[1..][i] == Choice(sym, r.value);
      r
  }

  ghost predicate DistinctKeys(opts: seq<Choice>)
  {
    forall i, j :: 0 <= i < j < |opts| ==> opts[i].symbol != opts[j].symbol
  }

  /** With distinct keys, looking up the key of any option yields that option's action. */
  lemma {:induction false} LookupFindsChoice(opts: seq<Choice>, i: nat)
    requires DistinctKeys(opts) && i < |opts|
    ensures Lookup(opts, opts[i].symbol) == Some(opts[i].action)
  {
    if i > 0 {
      assert opts[0].symbol != opts[i].symbol;
      assert opts[1..][i - 1] == opts[i];
      LookupFindsChoice(opts[1..], i - 1);
    }
  }

  /** What one option of node `id` must satisfy in a well-formed table. */
  ghost predicate ChoiceOk(t: Table, id: string, c: Choice)
  {
    match c.action
    case Goto(target, _) => target in t
    case End(_) => true
    case Transfer(_) => true
    case LookupPnr(_) => id == CollectNode && c.symbol == Terminator
    case Unknown(_, _) => false
  }

  /**
   * A table the engine can run without reaching its "bad menu", "unhandled"
   * or missing-target branches: the root exists, every goto target is a node,
   * every action has one of the four known kinds, a PNR lookup sits only under
   * the terminator of the collecting node, and no node lists a key twice.
   */
  ghost predicate WellFormed(t: Table)
  {
    && Root in t
    && forall id :: id in t ==>
         && DistinctKeys(t[id].options)
         && forall i :: 0 <= i < |t[id].options| ==> ChoiceOk(t, id, t[id].options[i])
  }

  /** `b` is reached from `a` by one goto option of `a`. */
  ghost predicate Linked(t: Table, a: string, b: string)
  {
    a in t && exists i :: 0 <= i < |t[a].options| && t[a].options[i].action.Goto? && t[a].options[i].action.target == b
  }

  /** What a lookup returns in a well-formed table. */
  lemma LookupInWellFormed(t: Table, id: string, sym: string)
    requires WellFormed(t) && id in t
    ensures match Lookup(t[id].options, sym)
            case None => true
            case Some(a) =>
              && !a.Unknown?
              && (a.Goto? ==> a.target in t && Linked(t, id, a.target))
              && (a.LookupPnr? ==> id == CollectNode && sym == Terminator)
  {
    var r := Lookup(t[id].options, sym);
    if r.Some? {
      var i :| 0 <= i < |t[id].options| && t[id].options[i] == Choice(sym, r.value);
      assert ChoiceOk(t, id, t[id].options[i]);
    }
  }
}
