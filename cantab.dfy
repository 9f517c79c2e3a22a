/**
 * `CantabResults`: one subject's row of the CANTAB export, looked up by
 * measure name or filtered down to the measures of one task.
 */
module Cantab {
  import opened Wrappers

  /** A cell of the CANTAB table. */
  datatype Cell = Text(s: string) | Number(x: real) | Empty

  /** A row of the table (a pandas Series): column name to cell. */
  type Series = map<string, Cell>

  predicate StartsWith(s: string, prefix: string)
  {
    |prefix| <= |s| && s[..|prefix|] == prefix
  }

  /** A task's measure: its name starts with the task name and has no space in it. */
  predicate IsTaskMeasure(name: string, task: string)
  {
    StartsWith(name, task) && ' ' !in name
  }

  /** The results of one subject; `series` is `None` when no row matched. */
  datatype CantabResults = CantabResults(series: Option<Series>)
  {
    /** `get_measure(name)`: `series[name]`; no row cannot be indexed, a missing measure is a KeyError. */
    function GetMeasure(name: string): (r: Result<Cell>)
      ensures series.None? ==> r == Err(TypeError)
      ensures series.Some? && name !in series.value ==> r == Err(KeyError)
      ensures series.Some? && name in series.value ==> r == Ok(series.value[name])
    {
      if series.None? then Err(TypeError)
      else if name !in series.value then Err(KeyError)
      else Ok(series.value[name])
    }

    /**
     * `get_task_meaures(task)`: exactly the task's measures of the row, with
     * their values; no row has no `to_dict`.
     */
    function GetTaskMeasures(task: string): (r: Result<map<string, Cell>>)
      ensures series.None? <==> r == Err(AttributeError)
      ensures r.Ok? ==> forall name :: name in r.value ==> IsTaskMeasure(name, task)
      ensures r.Ok? ==> forall name :: name in r.value ==> name in series.value && r.value[name] == series.value[name]
      ensures r.Ok? ==> forall name :: name in series.value && IsTaskMeasure(name, task) ==> name in r.value
    {
      if series.None? then Err(AttributeError)
      else Ok(map name | name in series.value && IsTaskMeasure(name, task) :: series.value[name])
    }
  }

  /** Every measure a task lookup returns reads back the same through `get_measure`. */
  lemma TaskMeasuresAreMeasures(c: CantabResults, task: string, name: string)
    requires c.GetTaskMeasures(task).Ok? && name in c.GetTaskMeasures(task).value
    ensures c.GetMeasure(name) == Ok(c.GetTaskMeasures(task).value[name])
  {
  }
}
