/**
 * The `create` command of the earlier compiler (pipeline.js:64-137): no includes,
 * one `script` list per job, interpolated as a whole before it is classified, where
 * only `export ` lines become `ENV` lines and every other line its own `RUN` line;
 * the base image is named after the project and the compose volume is the project.
 */
module PipelineCompile {
  import opened Wrappers
  import opened Yaml
  import Text
  import Seqs
  import Stages
  import opened Scripts
  import opened Jobs

  /** `base-<project without dots>`: unlike the later compiler, the document's `image` plays no part. */
  function BaseImage(project: string): string {
    "base-" + Text.RemoveChar(project, '.')
  }

  /** The volume every job service mounts at `/source`: the project's own. */
  function Mount(project: string): string {
    project + ":/source"
  }

  /** `pipeline.bash`: enter the project and start the compose file of the stage given as `$1`. */
  function Launcher(project: string): seq<string> {
    ["#!/bin/bash", "cd " + project, "docker-compose -f docker-compose.$1.yml up --force-recreate"]
  }

  /** `getContentArgs` applied to the `script` array: each string item interpolated, anything else left as it is. */
  function Interpolate(items: seq<Value>, interp: Interp, vars: Option<Value>): (r: seq<Value>)
    ensures |r| == |items|
    ensures forall k :: 0 <= k < |items| ==>
              r[k] == if items[k].Scalar? then Scalar(interp(items[k].text, vars)) else items[k]
  {
    seq(|items|, k requires 0 <= k < |items| => if items[k].Scalar? then Scalar(interp(items[k].text, vars)) else items[k])
  }

  /** One interpolated item: `startsWith` throws unless it is a string. */
  function ExportItem(item: Value): Result<Directive> {
    if item.Scalar? then ClassifyExport(item.text) else Err(NotAString("script"))
  }

  const ExportFn: LineClassifier := item => ExportItem(item)

  /** `RUN <command>` for every command, in order. */
  function RunLines(commands: seq<string>): (r: seq<string>)
    ensures |r| == |commands|
    ensures forall i :: 0 <= i < |r| ==> r[i] == "RUN " + commands[i]
  {
    seq(|commands|, i requires 0 <= i < |commands| => "RUN " + commands[i])
  }

  /**
   * One job's Dockerfile and build arguments (pipeline.js:105-120): the header, the
   * `ENV` lines, then one last line holding the `RUN` lines joined by newlines.
   */
  function JobSpec(job: Value, header: seq<string>, interp: Interp, vars: Option<Value>): Result<JobOut> {
    var script :- Prop(Some(job), "script");
    var items :- AsList(script, "script");
    var ds :- ClassifyFrom(Interpolate(items, interp, vars), ExportFn, []);
    Ok(JobOut(header + BuildLines(ds) + [Text.Join(RunLines(CommandsOf(ds)), "\n")], ArgsOf(ds)))
  }

  function JobFn(header: seq<string>, interp: Interp, vars: Option<Value>): JobCompiler {
    job => JobSpec(job, header, interp, vars)
  }

  lemma RunLinesStep(commands: seq<string>, c: string)
    ensures RunLines(commands + [c]) == RunLines(commands) + ["RUN " + c]
  {
  }

  /** What the script adds to the Dockerfile: its `ENV` lines after `lines0`, the build arguments and the `RUN` lines. */
  datatype Batch = Batch(lines: seq<string>, args: Obj, runs: seq<string>)

  /** The `map` over the interpolated `script` (pipeline.js:107-119). */
  method ClassifyScript(items: seq<Value>, lines0: seq<string>) returns (r: Result<Batch>)
    ensures var c := ClassifyFrom(items, ExportFn, []);
            r == if c.Err? then Err(c.error)
                 else Ok(Batch(lines0 + BuildLines(c.value), ArgsOf(c.value), RunLines(CommandsOf(c.value))))
  {
    var lines, args, runs := lines0, [], [];
    ghost var done: seq<Directive> := [];
    assert [] + done == done;
    assert items[0..] == items;
    var i := 0;
    while i < |items|
      invariant 0 <= i <= |items|
      invariant ClassifyFrom(items, ExportFn, []) == ClassifyFrom(items[i..], ExportFn, done)
      invariant lines == lines0 + BuildLines(done)
      invariant args == ArgsOf([] + done)
      invariant runs == RunLines(CommandsOf(done))
    {
      var d := ExportFn(items[i]);
      ClassifyFromStep(items, i, ExportFn, done);
      if d.Err? {
        return Err(d.error);
      }
      OutputsStep([], done, d.value, lines0);
      if d.value.Build? {
        args := Put(args, d.value.key, Scalar(d.value.value));
        lines := lines + [BuildLine(d.value.kind, d.value.key, d.value.value)];
      } else {
        RunLinesStep(CommandsOf(done), d.value.text);
        runs := runs + ["RUN " + d.value.text];
      }
      done := done + [d.value];
      i := i + 1;
    }
    assert [] + done == done;
    return Ok(Batch(lines, args, runs));
  }

  /** One job as the script compiles it: the interpolated list classified, then the `RUN` block. */
  method CompileJob(job: Value, header: seq<string>, interp: Interp, vars: Option<Value>) returns (r: Result<JobOut>)
    ensures r == JobSpec(job, header, interp, vars)
  {
    var script := Prop(Some(job), "script");
    if script.Err? {
      return Err(script.error);
    }
    var list := AsList(script.value, "script");
    if list.Err? {
      return Err(list.error);
    }
    var batch := ClassifyScript(Interpolate(list.value, interp, vars), header);
    if batch.Err? {
      return Err(batch.error);
    }
    return Ok(JobOut(batch.value.lines + [Text.Join(batch.value.runs, "\n")], batch.value.args));
  }

  /** The walk over `Object.keys(yamlObject)` (pipeline.js:100-128), as in the later compiler. */
  method CreateJobs(doc: Obj, ctx: Ctx, header: seq<string>, interp: Interp, vars: Option<Value>, services0: Obj)
    returns (r: Result<Plan>)
    ensures r == JobsFrom(doc, Keys(doc), 0, ctx, JobFn(header, interp, vars), Plan(services0, []))
  {
    var keys := Keys(doc);
    ghost var compile := JobFn(header, interp, vars);
    var services, files := services0, [];
    var i := 0;
    assert keys[0..] == keys;
    while i < |keys|
      invariant 0 <= i <= |keys|
      invariant JobsFrom(doc, keys, 0, ctx, compile, Plan(services0, []))
             == JobsFrom(doc, keys[i..], i, ctx, compile, Plan(services, files))
    {
      var key := keys[i];
      ghost var step := JobStep(doc, key, i, ctx, compile, Plan(services, files));
      JobsFromStep(doc, keys, i, ctx, compile, Plan(services, files));
      JobStepCases(doc, key, i, ctx, compile, Plan(services, files));
      var matches := StageMatches(doc, key, ctx.stage);
      if matches.Err? {
        return Err(matches.error);
      }
      if matches.value {
        var path := JobPath(ctx.project, i, ctx.stage, key);
        ghost var before := services;
        services := Put(services, key, JobService(path, [], ctx.mount));
        var out := CompileJob(Get(doc, key).value, header, interp, vars);
        assert out == compile(Get(doc, key).value);
        if out.Err? {
          return Err(out.error);
        }
        services := Put(services, key, JobService(path, out.value.args, ctx.mount));
        PutTwice(before, key, JobService(path, [], ctx.mount), JobService(path, out.value.args, ctx.mount));
        files := files + [File(path, out.value.lines)];
      }
      assert step == Ok(Plan(services, files));
      i := i + 1;
    }
    return Ok(Plan(services, files));
  }

  /**
   * A `create` run (pipeline.js:64-137): no stage compiles nothing; otherwise the
   * base image, the job Dockerfiles, the compose file with the base service first
   * and the launcher.
   */
  function CreateSpec(doc: Obj, cli: Option<string>, choice: int, project: string, interp: Interp): Result<Option<Artifacts>> {
    var selection :- Stages.Select(Get(doc, "stages"), cli, choice);
    if selection.NoStage? then Ok(None)
    else
      var ctx := Ctx(project, selection.stage, Mount(project));
      var compile := JobFn(Header(project, BaseImage(project)), interp, Get(doc, "variables"));
      var plan :- JobsFrom(doc, Keys(doc), 0, ctx, compile, Plan([(BaseImage(project), BaseService(project))], []));
      Ok(Some(Artifacts(BaseFile(project, Get(doc, "image")), plan.files, ComposePath(project, selection.stage),
                        Compose(plan.services, project), File("pipeline.bash", Launcher(project)))))
  }

  method Create(doc: Obj, cli: Option<string>, choice: int, project: string, interp: Interp)
    returns (r: Result<Option<Artifacts>>)
    ensures r == CreateSpec(doc, cli, choice, project, interp)
  {
    var selection := Stages.Select(Get(doc, "stages"), cli, choice);
    if selection.Err? {
      return Err(selection.error);
    }
    if selection.value.NoStage? {
      return Ok(None);
    }
    var baseImage := BaseImage(project);
    var ctx := Ctx(project, selection.value.stage, Mount(project));
    var plan := CreateJobs(doc, ctx, Header(project, baseImage), interp, Get(doc, "variables"),
                           [(baseImage, BaseService(project))]);
    if plan.Err? {
      return Err(plan.error);
    }
    var artifacts := Artifacts(BaseFile(project, Get(doc, "image")), plan.value.files, ComposePath(project, ctx.stage),
                               Compose(plan.value.services, project), File("pipeline.bash", Launcher(project)));
    return Ok(Some(artifacts));
  }

  // ---------------------------------------------------------------------------
  // Properties.

  /** An interpolated script line the earlier compiler accepts: a string, with an `=` after `export `. */
  predicate Accepted(item: Value, interp: Interp, vars: Option<Value>) {
    item.Scalar?
    && var line := interp(item.text, vars);
       Text.StartsWith(line, "export ") ==> '=' in line[|"export "|..]
  }

  /**
   * A job compiles iff `script` is an array of strings whose interpolated `export `
   * lines all assign with `=`.
   */
  lemma JobSpecOk(job: Value, header: seq<string>, interp: Interp, vars: Option<Value>)
    ensures JobSpec(job, header, interp, vars).Ok?
        <==> var script := Field(job, "script");
             && script.Some? && script.value.Sequence?
             && forall k :: 0 <= k < |script.value.items| ==> Accepted(script.value.items[k], interp, vars)
  {
    var script := Field(job, "script");
    if script.Some? && script.value.Sequence? {
      var items := script.value.items;
      var lines := Interpolate(items, interp, vars);
      ClassifyFromFacts(lines, ExportFn, []);
      forall k | 0 <= k < |items|
        ensures ExportFn(lines[k]).Ok? <==> Accepted(items[k], interp, vars)
      {
        if items[k].Scalar? {
          ClassifyExportCases(interp(items[k].text, vars));
        }
      }
    }
  }

  /** The interpolated `script` lines that are not `export ` lines, in order: the commands the `RUN` block runs. */
  function PlainLines(items: seq<Value>): seq<string> {
    if |items| == 0 then []
    else
      var last := items[|items| - 1];
      PlainLines(items[..|items| - 1]) + if last.Scalar? && !Text.StartsWith(last.text, "export ") then [last.text] else []
  }

  /** The commands of a classified script are its plain lines. */
  lemma {:induction false} CommandsPlain(items: seq<Value>, ds: seq<Directive>)
    requires |ds| == |items| && forall k :: 0 <= k < |items| ==> ExportItem(items[k]) == Ok(ds[k])
    ensures CommandsOf(ds) == PlainLines(items)
    decreases |items|
  {
    if |items| > 0 {
      var n := |items| - 1;
      var init, initDs := items[..n], ds[..n];
      forall k | 0 <= k < n
        ensures ExportItem(init[k]) == Ok(initDs[k])
      {
        assert init[k] == items[k] && initDs[k] == ds[k];
      }
      CommandsPlain(init, initDs);
      PlainStep(items[n], ds[n]);
    }
  }

  /** One classified line adds a command iff it is a plain line, and then adds that line. */
  lemma PlainStep(item: Value, d: Directive)
    requires ExportItem(item) == Ok(d)
    ensures (if d.Command? then [d.text] else []) == if item.Scalar? && !Text.StartsWith(item.text, "export ") then [item.text] else []
  {
    ClassifyExportCases(item.text);
  }

  /** A classified script renders only `ENV` lines, and its commands are its plain lines. */
  lemma ScriptOutputs(items: seq<Value>, ds: seq<Directive>)
    requires ClassifyFrom(items, ExportFn, []) == Ok(ds)
    ensures forall i :: 0 <= i < |BuildLines(ds)| ==> Text.StartsWith(BuildLines(ds)[i], "ENV ")
    ensures CommandsOf(ds) == PlainLines(items)
  {
    ClassifyFromFacts(items, ExportFn, []);
    forall k | 0 <= k < |items|
      ensures ExportItem(items[k]) == Ok(ds[k])
    {
      assert ExportFn(items[k]) == Ok(ds[k]);
    }
    forall k | 0 <= k < |ds| && ds[k].Build?
      ensures ds[k].kind == Env
    {
      ClassifyExportCases(items[k].text);
    }
    EnvLines(ds);
    CommandsPlain(items, ds);
  }

  /**
   * A compiled Dockerfile is the header, then only `ENV` lines (the earlier compiler
   * has no `ARG`), then one last element, present even when the script has no
   * command: the `RUN <line>` of every interpolated line that is not an `export `
   * line, in order, joined by newlines.
   */
  lemma JobSpecLayout(job: Value, header: seq<string>, interp: Interp, vars: Option<Value>)
    requires JobSpec(job, header, interp, vars).Ok?
    ensures var lines := JobSpec(job, header, interp, vars).value.lines;
            && |header| + 1 <= |lines| && lines[..|header|] == header
            && (forall i :: |header| <= i < |lines| - 1 ==> Text.StartsWith(lines[i], "ENV "))
            && lines[|lines| - 1]
               == Text.Join(RunLines(PlainLines(Interpolate(Field(job, "script").value.items, interp, vars))), "\n")
  {
    var items := Interpolate(Field(job, "script").value.items, interp, vars);
    var ds := ClassifyFrom(items, ExportFn, []).value;
    ScriptOutputs(items, ds);
    var build := BuildLines(ds);
    var lines := JobSpec(job, header, interp, vars).value.lines;
    assert lines == header + build + [Text.Join(RunLines(CommandsOf(ds)), "\n")];
    assert forall i :: |header| <= i < |lines| - 1 ==> lines[i] == build[i - |header|];
  }

  /** Every Dockerfile this compiler makes starts with its header. */
  lemma JobFnHeader(header: seq<string>, interp: Interp, vars: Option<Value>)
    ensures forall v :: JobFn(header, interp, vars)(v).Ok? ==> header <= JobFn(header, interp, vars)(v).value.lines
  {
    forall v | JobSpec(v, header, interp, vars).Ok?
      ensures header <= JobSpec(v, header, interp, vars).value.lines
    {
      JobSpecLayout(v, header, interp, vars);
    }
  }

  /** A run writes nothing exactly when no stage is selected; the document's `image` cannot make it throw. */
  lemma CreateNothingIffNoStage(doc: Obj, cli: Option<string>, choice: int, project: string, interp: Interp)
    ensures CreateSpec(doc, cli, choice, project, interp) == Ok(None)
        <==> Stages.Select(Get(doc, "stages"), cli, choice) == Ok(Stages.NoStage)
  {
  }

  /** What a run that writes something is made of: the selected stage and the walk's plan. */
  lemma CreateParts(doc: Obj, cli: Option<string>, choice: int, project: string, interp: Interp)
    returns (stage: Option<Value>, plan: Plan)
    requires CreateSpec(doc, cli, choice, project, interp).Ok?
    requires CreateSpec(doc, cli, choice, project, interp).value.Some?
    ensures Stages.Select(Get(doc, "stages"), cli, choice).Ok?
    ensures Stages.Select(Get(doc, "stages"), cli, choice).value.Selected?
    ensures stage == Stages.Select(Get(doc, "stages"), cli, choice).value.stage
    ensures JobsFrom(doc, Keys(doc), 0, Ctx(project, stage, Mount(project)),
                     JobFn(Header(project, BaseImage(project)), interp, Get(doc, "variables")),
                     Plan([(BaseImage(project), BaseService(project))], [])) == Ok(plan)
    ensures CreateSpec(doc, cli, choice, project, interp).value.value
         == Artifacts(BaseFile(project, Get(doc, "image")), plan.files, ComposePath(project, stage),
                      Compose(plan.services, project), File("pipeline.bash", Launcher(project)))
  {
    stage := Stages.Select(Get(doc, "stages"), cli, choice).value.stage;
    plan := JobsFrom(doc, Keys(doc), 0, Ctx(project, stage, Mount(project)),
                     JobFn(Header(project, BaseImage(project)), interp, Get(doc, "variables")),
                     Plan([(BaseImage(project), BaseService(project))], [])).value;
  }

  /**
   * The job Dockerfiles of a run are those of the entries whose `stage` is the
   * selected one, in key order, each named after its position and key.
   */
  lemma CreateJobFiles(doc: Obj, cli: Option<string>, choice: int, project: string, interp: Interp)
    requires CreateSpec(doc, cli, choice, project, interp).Ok?
    requires CreateSpec(doc, cli, choice, project, interp).value.Some?
    ensures var stage := Stages.Select(Get(doc, "stages"), cli, choice).value.stage;
            var ctx := Ctx(project, stage, Mount(project));
            var compile := JobFn(Header(project, BaseImage(project)), interp, Get(doc, "variables"));
            CreateSpec(doc, cli, choice, project, interp).value.value.jobs
            == MatchedFiles(doc, Matching(doc, Keys(doc), 0, stage), ctx, compile)
  {
    var stage, plan := CreateParts(doc, cli, choice, project, interp);
    JobsFiles(doc, Keys(doc), 0, Ctx(project, stage, Mount(project)),
              JobFn(Header(project, BaseImage(project)), interp, Get(doc, "variables")),
              Plan([(BaseImage(project), BaseService(project))], []));
  }

  /**
   * The compose file lists the base service `base-<project without dots>` first, and
   * every job Dockerfile starts `FROM <project without dots>_<that service>`.
   */
  lemma CreateBaseFirst(doc: Obj, cli: Option<string>, choice: int, project: string, interp: Interp)
    returns (services: Obj)
    requires CreateSpec(doc, cli, choice, project, interp).Ok?
    requires CreateSpec(doc, cli, choice, project, interp).value.Some?
    ensures var a := CreateSpec(doc, cli, choice, project, interp).value.value;
            && a.compose == Compose(services, project)
            && 0 < |services| && services[0].0 == BaseImage(project)
            && forall f :: f in a.jobs ==>
                 2 <= |f.lines| && f.lines[0] == "FROM " + Text.RemoveChar(project, '.') + "_" + services[0].0
  {
    var stage, plan := CreateParts(doc, cli, choice, project, interp);
    services := plan.services;
    var header := Header(project, BaseImage(project));
    var compile := JobFn(header, interp, Get(doc, "variables"));
    WalkFirstService(doc, Keys(doc), 0, Ctx(project, stage, Mount(project)), compile, BaseImage(project), BaseService(project));
    JobFnHeader(header, interp, Get(doc, "variables"));
    WalkFilesStart(doc, Keys(doc), 0, Ctx(project, stage, Mount(project)), compile,
                   Plan([(BaseImage(project), BaseService(project))], []), header);
  }

  /**
   * Each entry of the selected stage has a compose service named after its key that
   * builds its Dockerfile with its `ENV` values as build arguments and mounts the
   * project volume.
   */
  lemma CreateJobServices(doc: Obj, cli: Option<string>, choice: int, project: string, interp: Interp, j: nat)
    returns (services: Obj)
    requires UniqueKeys(doc) && j < |doc|
    requires CreateSpec(doc, cli, choice, project, interp).Ok?
    requires CreateSpec(doc, cli, choice, project, interp).value.Some?
    requires StageMatches(doc, doc[j].0, Stages.Select(Get(doc, "stages"), cli, choice).value.stage) == Ok(true)
    ensures CreateSpec(doc, cli, choice, project, interp).value.value.compose == Compose(services, project)
    ensures var stage := Stages.Select(Get(doc, "stages"), cli, choice).value.stage;
            var job := JobSpec(doc[j].1, Header(project, BaseImage(project)), interp, Get(doc, "variables"));
            && job.Ok?
            && Get(services, doc[j].0) == Some(JobService(JobPath(project, j, stage, doc[j].0), job.value.args, Mount(project)))
  {
    var stage, plan := CreateParts(doc, cli, choice, project, interp);
    services := plan.services;
    var compile := JobFn(Header(project, BaseImage(project)), interp, Get(doc, "variables"));
    WalkServiceOf(doc, Ctx(project, stage, Mount(project)), compile, Plan([(BaseImage(project), BaseService(project))], []), j);
  }

  /**
   * Only the base image and the entries of the selected stage have compose services:
   * no other key, whatever its entry holds, gets one.
   */
  lemma CreateOnlyMatching(doc: Obj, cli: Option<string>, choice: int, project: string, interp: Interp, k: string)
    returns (services: Obj)
    requires CreateSpec(doc, cli, choice, project, interp).Ok?
    requires CreateSpec(doc, cli, choice, project, interp).value.Some?
    requires k != BaseImage(project)
    requires StageMatches(doc, k, Stages.Select(Get(doc, "stages"), cli, choice).value.stage) != Ok(true)
    ensures CreateSpec(doc, cli, choice, project, interp).value.value.compose == Compose(services, project)
    ensures Get(services, k).None?
  {
    var stage, plan := CreateParts(doc, cli, choice, project, interp);
    services := plan.services;
    JobsOnlyMatching(doc, Keys(doc), 0, Ctx(project, stage, Mount(project)),
                     JobFn(Header(project, BaseImage(project)), interp, Get(doc, "variables")),
                     Plan([(BaseImage(project), BaseService(project))], []), k);
  }
}
