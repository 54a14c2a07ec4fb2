/**
 * The Service record: its declared task names and the table of task
 * instances loaded for it.  Scanning a task module yields its top-level
 * names in definition order; each is either a Task subclass or some other
 * object (the module's own `__name__`, imported helpers, ...).
 */
module Services {
  import opened Wrappers
  import opened Values
  import opened OrderedMaps
  import opened Actions
  import opened Tasks

  datatype Service = Service(
    name: string,
    description: string,
    tasks: seq<string>,
    loaded: OMap<string, Task>,
    actions: ActionTable)

  /** A top-level name of a scanned task module: a Task subclass, or anything else (`None`). */
  datatype Candidate = Candidate(attr: string, cls: Option<TaskClass>)

  /**
   * `get_task`: the loaded instance; a name the service declares but did not
   * load is a ValueError, any other name a KeyError.
   */
  function GetTask(s: Service, name: string): (r: Result<Task>)
    ensures r.Ok? <==> name in s.loaded.entries
    ensures r.Ok? ==> r.value == s.loaded.entries[name]
    ensures r.Err? && name in s.tasks ==> r.error == ValueError("Task " + name + " not loaded")
    ensures r.Err? && name !in s.tasks ==> r.error == KeyError("Task " + name + " not found in service " + s.name)
  {
    if name !in s.loaded.entries then
      if name in s.tasks then Err(ValueError("Task " + name + " not loaded"))
      else Err(KeyError("Task " + name + " not found in service " + s.name))
    else Ok(s.loaded.entries[name])
  }

  /** `get_tasks`: the loaded instances in load order. */
  function GetTasks(s: Service): seq<Task> {
    ValuesOf(s.loaded)
  }

  /** `get_task_names`: the loaded names in load order. */
  function GetTaskNames(s: Service): seq<string> {
    s.loaded.keys
  }

  /** The two enumerations walk the same table: position i of one is the task `get_task` returns for position i of the other. */
  lemma TasksAligned(s: Service)
    ensures |GetTasks(s)| == |GetTaskNames(s)|
    ensures forall i :: 0 <= i < |GetTaskNames(s)| ==> GetTask(s, GetTaskNames(s)[i]) == Ok(GetTasks(s)[i])
    ensures forall i, j :: 0 <= i < j < |GetTaskNames(s)| ==> GetTaskNames(s)[i] != GetTaskNames(s)[j]
  {
  }

  /**
   * The load filter as written: `isinstance(obj, type) and issubclass(obj, Task)
   * and name in self.tasks or self.tasks == ["*"]` -- `or` binds loosest, so
   * the wildcard also admits objects that are not Task classes.
   */
  predicate SelectedAsWritten(tasks: seq<string>, c: Candidate) {
    (c.cls.Some? && c.attr in tasks) || tasks == ["*"]
  }

  /** The load filter as evidently intended: a Task class that is declared, or any Task class under the wildcard. */
  predicate Selected(tasks: seq<string>, c: Candidate) {
    c.cls.Some? && (c.attr in tasks || tasks == ["*"])
  }

  /**
   * Instantiating a selected class: the class-level lists are copied onto the
   * instance (the constructor alone would reset them), then each requested
   * action the service's registry holds as a callable is bound.
   */
  function Instantiate(cls: TaskClass, offered: ActionTable): (t: Task)
    ensures t.name == cls.className && t.description == cls.doc && t.run == cls.run
    ensures t.dependencies == cls.dependencies && t.requestedActions == cls.requestedActions
    ensures t.actions == BoundActions(Empty(), cls.requestedActions, offered)
  {
    var t := Construct(cls, None, None, None, None);
    var t := t.(dependencies := cls.dependencies, requestedActions := cls.requestedActions);
    assert t.actions == Empty();
    t.(actions := BoundActions(t.actions, t.requestedActions, offered))
  }

  /** The loaded table after scanning `cs`, with the intended filter; a later name replaces an earlier one. */
  function LoadedTasks(loaded: OMap<string, Task>, tasks: seq<string>, offered: ActionTable, cs: seq<Candidate>): OMap<string, Task>
    decreases |cs|
  {
    if cs == [] then loaded
    else
      var next := if Selected(tasks, cs[0]) then Put(loaded, cs[0].attr, Instantiate(cs[0].cls.value, offered)) else loaded;
      LoadedTasks(next, tasks, offered, cs[1..])
  }

  /**
   * The scan as written: a candidate that passes the filter but is not a
   * class fails at `obj.__name__` with an AttributeError.
   */
  function LoadedTasksAsWritten(loaded: OMap<string, Task>, tasks: seq<string>, offered: ActionTable, cs: seq<Candidate>): Result<OMap<string, Task>>
    decreases |cs|
  {
    if cs == [] then Ok(loaded)
    else if SelectedAsWritten(tasks, cs[0]) && cs[0].cls.None? then
      Err(AttributeError("object has no attribute '__name__'"))
    else
      var next := if SelectedAsWritten(tasks, cs[0]) then Put(loaded, cs[0].attr, Instantiate(cs[0].cls.value, offered)) else loaded;
      LoadedTasksAsWritten(next, tasks, offered, cs[1..])
  }

  /** Every scanned module starts with its `__name__` entry, so a wildcard service never loads. */
  lemma WildcardLoadFails(loaded: OMap<string, Task>, offered: ActionTable, rest: seq<Candidate>)
    ensures LoadedTasksAsWritten(loaded, ["*"], offered, [Candidate("__name__", None)] + rest).Err?
    ensures LoadedTasks(loaded, ["*"], offered, [Candidate("__name__", None)] + rest) == LoadedTasks(loaded, ["*"], offered, rest)
  {
    assert ([Candidate("__name__", None)] + rest)[1..] == rest;
  }

  /** Without the wildcard the filter as written and the intended one agree. */
  lemma {:induction false} AsWrittenAgreesWithoutWildcard(loaded: OMap<string, Task>, tasks: seq<string>, offered: ActionTable, cs: seq<Candidate>)
    requires tasks != ["*"]
    ensures LoadedTasksAsWritten(loaded, tasks, offered, cs) == Ok(LoadedTasks(loaded, tasks, offered, cs))
    decreases |cs|
  {
    if cs != [] {
      var next := if Selected(tasks, cs[0]) then Put(loaded, cs[0].attr, Instantiate(cs[0].cls.value, offered)) else loaded;
      AsWrittenAgreesWithoutWildcard(next, tasks, offered, cs[1..]);
    }
  }

  /** The position of the last selected candidate named `k`, if any candidate of that name is selected. */
  function LastSelected(tasks: seq<string>, cs: seq<Candidate>, k: string): (r: Option<nat>)
    ensures r.Some? ==> r.value < |cs| && Selected(tasks, cs[r.value]) && cs[r.value].attr == k
    ensures r.Some? ==> forall j :: r.value < j < |cs| && Selected(tasks, cs[j]) ==> cs[j].attr != k
    ensures r.None? ==> forall i :: 0 <= i < |cs| && Selected(tasks, cs[i]) ==> cs[i].attr != k
    decreases |cs|
  {
    if cs == [] then None
    else
      var later := LastSelected(tasks, cs[1..], k);
      assert forall i :: 1 <= i < |cs| ==> cs[i] == cs[1..][i - 1];
      if later.Some? then Some(later.value + 1)
      else if Selected(tasks, cs[0]) && cs[0].attr == k then Some(0)
      else None
  }

  /**
   * Each name maps to exactly one instance: the one built from the last
   * selected class of that name, or the earlier entry when none is selected.
   */
  lemma {:induction false} LoadedTasksSpec(loaded: OMap<string, Task>, tasks: seq<string>, offered: ActionTable, cs: seq<Candidate>, k: string)
    ensures Get(LoadedTasks(loaded, tasks, offered, cs), k) ==
      match LastSelected(tasks, cs, k)
      case Some(i) => Some(Instantiate(cs[i].cls.value, offered))
      case None => Get(loaded, k)
    decreases |cs|
  {
    if cs != [] {
      var next := if Selected(tasks, cs[0]) then Put(loaded, cs[0].attr, Instantiate(cs[0].cls.value, offered)) else loaded;
      LoadedTasksSpec(next, tasks, offered, cs[1..], k);
    }
  }

  /**
   * The scanning loop of `_load_tasks` (intended filter) run over the
   * top-level names of the service's task modules, in order.
   */
  method LoadTasks(s: Service, cs: seq<Candidate>) returns (loadedService: Service)
    ensures loadedService == s.(loaded := LoadedTasks(s.loaded, s.tasks, s.actions, cs))
  {
    var loaded := s.loaded;
    var i := 0;
    while i < |cs|
      invariant 0 <= i <= |cs|
      invariant LoadedTasks(loaded, s.tasks, s.actions, cs[i..]) == LoadedTasks(s.loaded, s.tasks, s.actions, cs)
    {
      var c := cs[i];
      if c.cls.Some? && (c.attr in s.tasks || s.tasks == ["*"]) {
        var cls := c.cls.value;
        var t := Construct(cls, None, None, None, None);
        t := t.(dependencies := cls.dependencies, requestedActions := cls.requestedActions);
        t := BindRequestedActions(t, s.actions);
        loaded := Put(loaded, c.attr, t);
      }
      assert cs[i..][1..] == cs[i + 1..];
      i := i + 1;
    }
    loadedService := s.(loaded := loaded);
  }
}
