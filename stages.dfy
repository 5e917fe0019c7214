/**
 * Choosing the stage to compile (index.js:126-135, pipeline.js:64-74): the stage
 * named on the command line is looked up with `stages.indexOf`, and without one
 * the index picked at the interactive prompt is used; -1 means no stage.
 */
module Stages {
  import opened Wrappers
  import opened Yaml
  import Text
  import Seqs

  /** The outcome of the selection: nothing to compile, or the index and `stages[index]`. */
  datatype Selection = NoStage | Selected(index: nat, stage: Option<Value>)

  /**
   * `stages.indexOf(name)`, for whatever `stages` the document holds: a missing or
   * `null` list throws, an object has no `indexOf`, an array gives the first position
   * of the name (or -1) and a string the first position of the name as a substring.
   */
  function IndexOfStage(stages: Option<Value>, name: string): (r: Result<int>)
    ensures r.Err? <==> stages.None? || stages.value.Null? || stages.value.Mapping?
    ensures r.Ok? ==> r.value >= -1
    ensures stages.Some? && stages.value.Sequence? ==>
              var items := stages.value.items;
              && (r.value == -1 <==> Scalar(name) !in items)
              && (r.value >= 0 ==> r.value < |items| && items[r.value] == Scalar(name) && Scalar(name) !in items[..r.value])
    ensures stages.Some? && stages.value.Scalar? ==>
              r.value == -1 || Text.OccursAt(stages.value.text, name, r.value)
  {
    match stages
    case None => Err(NullProperty("stages"))
    case Some(Null) => Err(NullProperty("stages"))
    case Some(Sequence(items)) => Ok(Seqs.IndexOfElem(items, Scalar(name)))
    case Some(Scalar(t)) => Ok(Text.IndexOf(t, name))
    case Some(Mapping(_)) => Err(NoSuchMethod("indexOf"))
  }

  /** `stages[index]` for a non-negative index; an index past the end reads `undefined`. */
  function StageAt(stages: Option<Value>, index: nat): (r: Result<Option<Value>>)
    ensures r.Err? <==> stages.None? || stages.value.Null?
    ensures stages.Some? && stages.value.Sequence? ==>
              r == Ok(if index < |stages.value.items| then Some(stages.value.items[index]) else None)
  {
    match stages
    case None => Err(NullProperty("stages"))
    case Some(Null) => Err(NullProperty("stages"))
    case Some(Sequence(items)) => Ok(if index < |items| then Some(items[index]) else None)
    case Some(Scalar(t)) => Ok(if index < |t| then Some(Scalar([t[index]])) else None)
    case Some(Mapping(entries)) => Ok(Get(entries, Text.NatToString(index)))
  }

  /**
   * The stage selection: `cli` is the stage argument, `choice` the index the
   * prompt returns when there is none (an empty argument also prompts).
   */
  function Select(stages: Option<Value>, cli: Option<string>, choice: int): Result<Selection> {
    var index :- if cli.None? || cli.value == "" then Ok(choice) else IndexOfStage(stages, cli.value);
    if index < 0 then Ok(NoStage)
    else
      var stage :- StageAt(stages, index);
      Ok(Selected(index, stage))
  }

  /**
   * A stage named on the command line is compiled iff it is one of `stages`;
   * then the compiled stage is that name, at its first position.
   */
  lemma SelectNamed(items: seq<Value>, name: string, choice: int)
    requires name != ""
    ensures Select(Some(Sequence(items)), Some(name), choice).Ok?
    ensures Select(Some(Sequence(items)), Some(name), choice).value.NoStage? <==> Scalar(name) !in items
    ensures Scalar(name) in items ==>
              (Select(Some(Sequence(items)), Some(name), choice)
               == Ok(Selected(Seqs.FirstIndex(items, Scalar(name)), Some(Scalar(name)))))
  {
  }

  /** Without a stage argument the prompt decides: -1 (escape) compiles nothing, a listed index compiles that stage. */
  lemma SelectPrompted(items: seq<Value>, cli: Option<string>, choice: int)
    requires cli.None? || cli.value == ""
    requires -1 <= choice < |items|
    ensures Select(Some(Sequence(items)), cli, choice)
         == if choice == -1 then Ok(NoStage) else Ok(Selected(choice, Some(items[choice])))
  {
  }

  /** A document without `stages` throws as soon as a stage is looked up by name. */
  lemma SelectWithoutStages(cli: Option<string>, choice: int)
    requires cli.Some? && cli.value != ""
    ensures Select(None, cli, choice).Err?
  {
  }
}
