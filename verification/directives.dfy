/**
 * The inbound message and the choice of action and repository that
 * processMessage makes from it.
 */
module Directives {
  import opened Wrappers

  /** The decoded message: each field is "" when absent. */
  datatype Message = Message(up: string, down: string, restart: string)

  /** What JSON decoding of a raw message yields. */
  datatype Decoded = Decoded(msg: Message) | Malformed(cause: string)

  datatype Action = Up | Down | Restart

  /** The resolved directive: which repository, which action. */
  datatype Directive = Directive(repo: string, action: Action)

  /** The action's name as it appears in logs and in the work-order type tag. */
  function ActionName(a: Action): string
  {
    match a
    case Up => "up"
    case Down => "down"
    case Restart => "restart"
  }

  /** The message field that carries the repository for action `a`. */
  function FieldFor(m: Message, a: Action): string
  {
    match a
    case Up => m.up
    case Down => m.down
    case Restart => m.restart
  }

  /** The priority chain of processMessage: a non-empty `up` wins, then a
      non-empty `down`, then a non-empty `restart`; with all three empty there
      is no directive. Several non-empty fields are not rejected. */
  function Resolve(m: Message): (r: Option<Directive>)
    ensures r.None? <==> m.up == "" && m.down == "" && m.restart == ""
    ensures r.Some? ==> r.value.repo == FieldFor(m, r.value.action) && r.value.repo != ""
    ensures (r.Some? && r.value.action == Up) <==> m.up != ""
    ensures (r.Some? && r.value.action == Down) <==> m.up == "" && m.down != ""
    ensures (r.Some? && r.value.action == Restart) <==> m.up == "" && m.down == "" && m.restart != ""
  {
    if m.up != "" then Some(Directive(m.up, Up))
    else if m.down != "" then Some(Directive(m.down, Down))
    else if m.restart != "" then Some(Directive(m.restart, Restart))
    else None
  }

  /** Reference rule: the first field, in the given order, that is non-empty. */
  function FirstSet(fields: seq<(string, Action)>): Option<Directive>
  {
    if fields == [] then None
    else if fields[0].0 != "" then Some(Directive(fields[0].0, fields[0].1))
    else FirstSet(fields[1..])
  }

  /** Resolve is the first-non-empty rule over the order up, down, restart. */
  lemma ResolveIsFirstSet(m: Message)
    ensures Resolve(m) == FirstSet([(m.up, Up), (m.down, Down), (m.restart, Restart)])
  {
    var fields := [(m.up, Up), (m.down, Down), (m.restart, Restart)];
    assert fields[1..] == [(m.down, Down), (m.restart, Restart)];
    assert fields[1..][1..] == [(m.restart, Restart)];
    assert fields[1..][1..][1..] == [];
    assert FirstSet(fields[1..][1..]) == (if m.restart != "" then Some(Directive(m.restart, Restart)) else None);
    assert FirstSet(fields[1..]) == (if m.down != "" then Some(Directive(m.down, Down)) else FirstSet(fields[1..][1..]));
  }

  /** A message naming a single action resolves to that action and its repository. */
  lemma SingleFieldResolves(m: Message, a: Action)
    requires FieldFor(m, a) != ""
    requires forall b :: b != a ==> FieldFor(m, b) == ""
    ensures Resolve(m) == Some(Directive(FieldFor(m, a), a))
  {
    match a
    case Up =>
    case Down => assert FieldFor(m, Up) == "";
    case Restart => assert FieldFor(m, Up) == "" && FieldFor(m, Down) == "";
  }

  /** Distinct actions have distinct work-order type tags. */
  lemma TypeTagInjective(a: Action, b: Action)
    requires "service-" + ActionName(a) == "service-" + ActionName(b)
    ensures a == b
  {
    var sa, sb := "service-" + ActionName(a), "service-" + ActionName(b);
    assert ActionName(a) == sa[8..] && ActionName(b) == sb[8..];
  }
}
