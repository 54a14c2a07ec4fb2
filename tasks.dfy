/**
 * The Task record: name, description, declared dependency names, requested
 * capability names, an uninterpreted body and the task's own capability
 * registry.  A body receives a dictionary and either returns a result or
 * raises an exception; either way it also gives the dictionary's contents at
 * that point (tasks may write into it, and writes made before an exception
 * stay made).
 */
module Tasks {
  import opened Wrappers
  import opened Values
  import opened OrderedMaps
  import opened Actions

  type TaskBody = Ctx -> (Result<Value>, Ctx)

  /** What a task class declares at class level. */
  datatype TaskClass = TaskClass(
    className: string,
    doc: Option<string>,
    dependencies: seq<string>,
    requestedActions: seq<string>,
    run: TaskBody)

  datatype Task = Task(
    name: string,
    description: Option<string>,
    dependencies: seq<string>,
    requestedActions: seq<string>,
    run: TaskBody,
    actions: ActionTable)

  /**
   * Constructing a task instance of class `cls`: the dataclass defaults plus
   * `__post_init__`.  An omitted list argument becomes a fresh empty list
   * (the class-level lists are NOT picked up by the constructor).  `None`
   * for a list argument stands for "omitted": Python would keep an explicit
   * `dependencies=None`, since `default_factory` applies only to an omitted
   * argument, but no caller modelled here passes one.
   */
  function Construct(cls: TaskClass, name: Option<string>, description: Option<string>,
                     dependencies: Option<seq<string>>, requestedActions: Option<seq<string>>): (t: Task)
    ensures name.Some? ==> t.name == name.value
    ensures name.None? ==> t.name == cls.className
    ensures description.Some? ==> t.description == description
    ensures description.None? ==> t.description == cls.doc
    ensures dependencies.None? ==> t.dependencies == []
    ensures requestedActions.None? ==> t.requestedActions == []
    ensures dependencies.Some? ==> t.dependencies == dependencies.value
    ensures requestedActions.Some? ==> t.requestedActions == requestedActions.value
    ensures t.run == cls.run && t.actions.keys == []
  {
    Task(name.GetOr(cls.className),
         if description.Some? then description else cls.doc,
         dependencies.GetOr([]),
         requestedActions.GetOr([]),
         cls.run,
         Empty())
  }

  /** `__post_init__` leaves explicitly supplied values alone: rebuilding a task from its own fields gives it back. */
  lemma ConstructKeepsExplicit(cls: TaskClass, t: Task)
    requires t.run == cls.run && t.actions.keys == [] && t.description.Some?
    ensures Construct(cls, Some(t.name), t.description, Some(t.dependencies), Some(t.requestedActions)) == t
  {
    assert t.actions == Empty();
  }

  /** One step of the binding loop: register `name` if `offered` holds it as a callable. */
  function Offer(table: ActionTable, name: string, offered: ActionTable): ActionTable {
    var a := GetAction(offered, name);
    if a.1.Some? then Register(table, name, a.0.GetOr(""), a.1).value else table
  }

  /** The task's registry after offering it every requested name in order. */
  function BoundActions(table: ActionTable, requested: seq<string>, offered: ActionTable): ActionTable
    decreases |requested|
  {
    if requested == [] then table
    else BoundActions(Offer(table, requested[0], offered), requested[1..], offered)
  }

  /**
   * After binding, a name maps to what `offered` holds when it is requested
   * and offered, and to what the task already had otherwise; absent requested
   * names are skipped silently, and the earlier names keep their order.
   */
  lemma {:induction false} BoundActionsSpec(table: ActionTable, requested: seq<string>, offered: ActionTable)
    ensures forall k :: k in requested && k in offered.entries ==>
      GetAction(BoundActions(table, requested, offered), k) == GetAction(offered, k)
    ensures forall k :: !(k in requested && k in offered.entries) ==>
      GetAction(BoundActions(table, requested, offered), k) == GetAction(table, k)
    ensures |table.keys| <= |BoundActions(table, requested, offered).keys|
    ensures BoundActions(table, requested, offered).keys[..|table.keys|] == table.keys
    decreases |requested|
  {
    BoundActionsKeys(table, requested, offered);
    if requested != [] {
      var next := Offer(table, requested[0], offered);
      BoundActionsSpec(next, requested[1..], offered);
      var r := BoundActions(next, requested[1..], offered);
      assert r == BoundActions(table, requested, offered);
      forall k | k in requested && k in offered.entries
        ensures GetAction(r, k) == GetAction(offered, k)
      {
        if k !in requested[1..] {
          assert k == requested[0];
        }
      }
      forall k | !(k in requested && k in offered.entries)
        ensures GetAction(r, k) == GetAction(table, k)
      {
        assert k !in requested[1..] || k !in offered.entries;
      }
    }
  }

  /** Binding only appends names: the keys the task had stay in front, in their order. */
  lemma {:induction false} BoundActionsKeys(table: ActionTable, requested: seq<string>, offered: ActionTable)
    ensures |table.keys| <= |BoundActions(table, requested, offered).keys|
    ensures BoundActions(table, requested, offered).keys[..|table.keys|] == table.keys
    decreases |requested|
  {
    if requested != [] {
      var next := Offer(table, requested[0], offered);
      BoundActionsKeys(next, requested[1..], offered);
      var r := BoundActions(next, requested[1..], offered);
      assert r == BoundActions(table, requested, offered);
      OfferKeys(table, requested[0], offered);
      PrefixOfPrefix(table.keys, next.keys, r.keys);
    }
  }

  /** Offering one name keeps the existing names in front. */
  lemma OfferKeys(table: ActionTable, name: string, offered: ActionTable)
    ensures |table.keys| <= |Offer(table, name, offered).keys|
    ensures Offer(table, name, offered).keys[..|table.keys|] == table.keys
  {
  }

  lemma PrefixOfPrefix<T>(a: seq<T>, b: seq<T>, c: seq<T>)
    requires |a| <= |b| <= |c| && b[..|a|] == a && c[..|b|] == b
    ensures c[..|a|] == a
  {
    assert c[..|a|] == c[..|b|][..|a|];
  }

  /**
   * The binding loop run for one task (`for action in task.requested_actions:
   * a = get_action(action); if callable(a[1]): task.register_action(action, *a)`).
   */
  method BindRequestedActions(t: Task, offered: ActionTable) returns (bound: Task)
    ensures bound == t.(actions := BoundActions(t.actions, t.requestedActions, offered))
  {
    var table := t.actions;
    var i := 0;
    while i < |t.requestedActions|
      invariant 0 <= i <= |t.requestedActions|
      invariant BoundActions(table, t.requestedActions[i..], offered) == BoundActions(t.actions, t.requestedActions, offered)
    {
      var name := t.requestedActions[i];
      var a := GetAction(offered, name);
      if a.1.Some? {
        var r := Register(table, name, a.0.GetOr(""), a.1);
        table := r.value;
      }
      assert t.requestedActions[i..][1..] == t.requestedActions[i + 1..];
      i := i + 1;
    }
    bound := t.(actions := table);
  }
}
