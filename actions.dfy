/**
 * The capability registry that every orchestration object mixes in
 * (`ActionDataclassMixin`): a name -> (argument hint, callable) table in
 * registration order.  Re-registering a name overwrites it (last writer
 * wins); looking up or invoking an absent name never raises.
 */
module Actions {
  import opened Wrappers
  import opened Values
  import opened OrderedMaps

  /**
   * A callable; only positional arguments are modelled.  It either returns a
   * value or raises an exception.
   */
  type Action = seq<Value> -> Result<Value>

  datatype Entry = Entry(argstr: string, action: Action)

  type ActionTable = OMap<string, Entry>

  /** `get_action`: the stored pair, or `(None, None)` for an absent name. */
  function GetAction(t: ActionTable, name: string): (r: (Option<string>, Option<Action>))
    ensures name !in t.entries <==> r == (None, None)
    ensures name in t.entries ==> r == (Some(t.entries[name].argstr), Some(t.entries[name].action))
  {
    if name in t.entries then (Some(t.entries[name].argstr), Some(t.entries[name].action))
    else (None, None)
  }

  /**
   * `register_action`: a non-callable is refused with a TypeError and the
   * table is left alone; otherwise the pair is stored, replacing any earlier
   * one under the same name without changing the order of names.
   */
  function Register(t: ActionTable, name: string, argstr: string, action: Option<Action>): (r: Result<ActionTable>)
    ensures r.Err? <==> action.None?
    ensures r.Err? ==> r.error == TypeError("Action " + name + " is not callable")
    ensures r.Ok? ==> GetAction(r.value, name) == (Some(argstr), action)
    ensures r.Ok? ==> forall k :: k != name ==> GetAction(r.value, k) == GetAction(t, k)
    ensures r.Ok? && name in t.entries ==> r.value.keys == t.keys
    ensures r.Ok? && name !in t.entries ==> r.value.keys == t.keys + [name]
  {
    match action
    case None => Err(TypeError("Action " + name + " is not callable"))
    case Some(f) => Ok(Put(t, name, Entry(argstr, f)))
  }

  /** `possible_actions`: the registered names, each once, in first-registration order. */
  function PossibleActions(t: ActionTable): seq<string> {
    t.keys
  }

  /** Python's `str()` of a list of strings: `['a', 'b']`. */
  function ListRepr(names: seq<string>): string {
    "[" + QuotedItems(names) + "]"
  }

  function QuotedItems(names: seq<string>): string {
    if names == [] then ""
    else if |names| == 1 then "'" + names[0] + "'"
    else "'" + names[0] + "', " + QuotedItems(names[1..])
  }

  function NotFoundMessage(name: string, available: seq<string>): string {
    "Action " + name + " not found. available actions: " + ListRepr(available)
  }

  /**
   * `try_run_action`: calls the registered callable, whose result or
   * exception passes through unchanged, or returns the not-found sentinel
   * string (listing the registered names) for an absent name instead of
   * raising.
   */
  function TryRunAction(t: ActionTable, name: string, args: seq<Value>): (r: Result<Value>)
    ensures name in t.entries ==> r == t.entries[name].action(args)
    ensures name !in t.entries ==> r == Ok(VStr(NotFoundMessage(name, PossibleActions(t))))
  {
    match GetAction(t, name).1
    case Some(f) => f(args)
    case None => Ok(VStr(NotFoundMessage(name, PossibleActions(t))))
  }

  /** The registry an object owns and updates in place. */
  class ActionRegistry {
    var table: ActionTable

    /** The table is created empty (the mixin creates it lazily on first access). */
    constructor ()
      ensures table.keys == [] && table.entries == map[]
    {
      table := Empty();
    }

    method RegisterAction(name: string, argstr: string, action: Option<Action>) returns (outcome: Result<()>)
      modifies this
      ensures Register(old(table), name, argstr, action).Err? ==>
        table == old(table) && outcome == Err(Register(old(table), name, argstr, action).error)
      ensures Register(old(table), name, argstr, action).Ok? ==>
        table == Register(old(table), name, argstr, action).value && outcome == Ok(())
    {
      var r := Register(table, name, argstr, action);
      if r.Ok? {
        table := r.value;
        outcome := Ok(());
      } else {
        outcome := Err(r.error);
      }
    }
  }
}
