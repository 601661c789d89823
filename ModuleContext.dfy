/** The registry of installable planner modules: a list of modules, each
    with an `installed` flag that the modules page toggles. The storage it
    loads from is not modelled; the saved list is a constructor parameter. */
module ModuleContext {
  import opened JsText
  import opened Seqs

  datatype Module = Module(id: string, name: string, description: string, icon: string, installed: bool)

  /** The four modules of a fresh installation, none installed. */
  const DefaultModules: seq<Module> := [
    Module("timer", "Timer", "Track time with countdown and pomodoro timers", "timer", false),
    Module("heatmap", "Time Heatmap", "Visualize your daily activity intensity", "activity", false),
    Module("habits", "Daily Habits", "Automate recurring activities in your timeline", "repeat", false),
    Module("todos", "To-Do List", "Manage tasks with timeline integration", "check-square", false)
  ]

  lemma DefaultModulesShape()
    ensures |DefaultModules| == 4
    ensures DefaultModules[0].id == "timer" && DefaultModules[1].id == "heatmap"
    ensures DefaultModules[2].id == "habits" && DefaultModules[3].id == "todos"
    ensures forall m :: m in DefaultModules ==> !m.installed
  {
  }

  /** `modules.map(m => m.id === id ? { ...m, installed: !m.installed } : m)`. */
  function Toggled(modules: seq<Module>, id: string): (r: seq<Module>)
    ensures |r| == |modules|
    ensures forall i :: 0 <= i < |modules| && modules[i].id != id ==> r[i] == modules[i]
    ensures forall i :: 0 <= i < |modules| && modules[i].id == id ==>
      r[i] == modules[i].(installed := !modules[i].installed)
  {
    MapSeq((m: Module) => if m.id == id then m.(installed := !m.installed) else m, modules)
  }

  /** Toggling the same module twice restores the list. */
  lemma ToggleTwice(modules: seq<Module>, id: string)
    ensures Toggled(Toggled(modules, id), id) == modules
  {
    var r := Toggled(Toggled(modules, id), id);
    assert forall i :: 0 <= i < |modules| ==> r[i] == modules[i];
  }

  /** `modules.find(m => m.id === id)`. */
  function Find(modules: seq<Module>, id: string): (r: Option<Module>)
    ensures r.Some? ==> r.value in modules && r.value.id == id
    ensures r.None? <==> forall m :: m in modules ==> m.id != id
  {
    if modules == [] then None
    else if modules[0].id == id then Some(modules[0])
    else Find(modules[1..], id)
  }

  /** `find(...)?.installed || false`. */
  function IsInstalled(modules: seq<Module>, id: string): bool {
    var m := Find(modules, id);
    m.Some? && m.value.installed
  }

  /** An unknown id is not installed; a known one reports the flag of the
      first module under that id. */
  lemma {:induction false} IsInstalledMeaning(modules: seq<Module>, id: string)
    ensures (forall m :: m in modules ==> m.id != id) ==> !IsInstalled(modules, id)
    ensures forall i :: 0 <= i < |modules| && modules[i].id == id &&
                        (forall j :: 0 <= j < i ==> modules[j].id != id) ==>
                        IsInstalled(modules, id) == modules[i].installed
  {
    if modules != [] && modules[0].id != id {
      IsInstalledMeaning(modules[1..], id);
      forall i | 0 <= i < |modules| && modules[i].id == id && (forall j :: 0 <= j < i ==> modules[j].id != id)
        ensures IsInstalled(modules, id) == modules[i].installed
      {
        assert modules[1..][i - 1] == modules[i];
        assert forall j :: 0 <= j < i - 1 ==> modules[1..][j] == modules[j + 1];
      }
    }
  }

  /** After a toggle the module reports the opposite flag, and every other
      module its old one. */
  lemma ToggleFlipsInstalled(modules: seq<Module>, id: string, other: string)
    ensures IsInstalled(Toggled(modules, id), id) == (Find(modules, id).Some? && !IsInstalled(modules, id))
    ensures other != id ==> IsInstalled(Toggled(modules, id), other) == IsInstalled(modules, other)
  {
    ToggledFind(modules, id, id);
    ToggledFind(modules, id, other);
  }

  lemma {:induction false} ToggledFind(modules: seq<Module>, id: string, key: string)
    ensures var f := Find(modules, key);
      Find(Toggled(modules, id), key) ==
        (if f.Some? && key == id then Some(f.value.(installed := !f.value.installed)) else f)
  {
    if modules != [] {
      var t := Toggled(modules, id);
      assert t[1..] == Toggled(modules[1..], id);
      ToggledFind(modules[1..], id, key);
    }
  }

  class ModuleRegistry {
    var modules: seq<Module>

    /** Starts from the saved list, or from the defaults. */
    constructor (saved: Option<seq<Module>>)
      ensures modules == (if saved.Some? then saved.value else DefaultModules)
    {
      modules := if saved.Some? then saved.value else DefaultModules;
    }

    method ToggleModule(id: string)
      modifies this
      ensures modules == Toggled(old(modules), id)
    {
      modules := Toggled(modules, id);
    }

    /** `isModuleInstalled(id)`, read from the current list. */
    function IsModuleInstalled(id: string): bool
      reads this
    {
      IsInstalled(modules, id)
    }
  }
}
