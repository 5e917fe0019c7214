/**
 * The `create` command of the later compiler (index.js:122-216): includes are
 * resolved, the stage is chosen, and every job of that stage becomes a Dockerfile
 * with its `before_script` and `script` lines classified into `ARG`/`ENV` lines and
 * two `RUN` lines, plus a compose service; a base image Dockerfile, the compose
 * file and the launcher `pipeline.sh` complete the output.
 */
module IndexCompile {
  import opened Wrappers
  import opened Yaml
  import Text
  import Seqs
  import Includes
  import Stages
  import opened Scripts
  import opened Jobs

  /** The volume every job service mounts at `/source`. */
  const SharedMount := "shared:/source"

  /** `base-${image.split(':')[0]}`: `split` throws unless `image` is a string. */
  function BaseImage(image: Option<Value>): (r: Result<string>)
    ensures r.Ok? <==> image.Some? && image.value.Scalar?
  {
    match image
    case None => Err(NullProperty("image"))
    case Some(Null) => Err(NullProperty("image"))
    case Some(Scalar(t)) => Ok("base-" + Text.Split(t, ':')[0])
    case Some(_) => Err(NoSuchMethod("split"))
  }

  /** The base image is named after the image without its tag: the text before the first `:`. */
  lemma BaseImageUntagged(t: string)
    ensures BaseImage(Some(Scalar(t))) == Ok("base-" + if ':' in t then t[..Text.CharIndex(t, ':')] else t)
  {
    if ':' in t {
      Text.SplitHead(t, ':');
    }
  }

  /** `pipeline.sh`: enter the project, drop the shared volume, start the compose file of the stage given as `$1`. */
  function Launcher(project: string): seq<string> {
    ["#!/bin/bash",
     "cd " + project,
     "docker volume rm " + Text.RemoveChar(project, '.') + "_shared > /dev/null",
     "docker-compose -f docker-compose.$1.yml --project-name " + project + " up --force-recreate"]
  }

  /** The later compiler's classifier for the lines of one run. */
  function LineFn(interp: Interp, vars: Option<Value>): LineClassifier {
    item => ClassifyLine(item, interp, vars)
  }

  /**
   * One job's Dockerfile and build arguments (index.js:165-199): the header, the
   * `ARG`/`ENV` lines of `before_script` and then of `script`, then one `RUN` line
   * per list with its commands joined by ` && `.
   */
  function JobSpec(job: Value, header: seq<string>, interp: Interp, vars: Option<Value>): Result<JobOut> {
    var before :- Prop(Some(job), "before_script");
    var beforeItems :- AsList(before, "before_script");
    var ds1 :- ClassifyFrom(beforeItems, LineFn(interp, vars), []);
    // `job` is not null here, so reading `script` cannot throw
    var scriptItems :- AsList(Field(job, "script"), "script");
    var ds2 :- ClassifyFrom(scriptItems, LineFn(interp, vars), []);
    Ok(JobOut(header + BuildLines(ds1 + ds2)
              + ["RUN " + Text.Join(CommandsOf(ds1), " && "), "RUN " + Text.Join(CommandsOf(ds2), " && ")],
              ArgsOf(ds1 + ds2)))
  }

  function JobFn(header: seq<string>, interp: Interp, vars: Option<Value>): JobCompiler {
    job => JobSpec(job, header, interp, vars)
  }

  /** What one script list adds: the Dockerfile so far, the build arguments so far, and the list's own commands. */
  datatype Batch = Batch(lines: seq<string>, args: Obj, commands: seq<string>)

  /**
   * The `map` over one script list (index.js:171-184 and 185-197): build lines are
   * pushed onto the Dockerfile and written into the build arguments, commands go
   * into the list's own bucket.
   */
  method ClassifyList(items: seq<Value>, classify: LineClassifier, ghost prior: seq<Directive>, lines0: seq<string>, args0: Obj)
    returns (r: Result<Batch>)
    requires args0 == ArgsOf(prior)
    ensures var c := ClassifyFrom(items, classify, []);
            r == if c.Err? then Err(c.error)
                 else Ok(Batch(lines0 + BuildLines(c.value), ArgsOf(prior + c.value), CommandsOf(c.value)))
  {
    var lines, args, commands := lines0, args0, [];
    ghost var done: seq<Directive> := [];
    assert prior + done == prior;
    assert items[0..] == items;
    var i := 0;
    while i < |items|
      invariant 0 <= i <= |items|
      invariant ClassifyFrom(items, classify, []) == ClassifyFrom(items[i..], classify, done)
      invariant lines == lines0 + BuildLines(done)
      invariant args == ArgsOf(prior + done)
      invariant commands == CommandsOf(done)
    {
      var d := classify(items[i]);
      ClassifyFromStep(items, i, classify, done);
      if d.Err? {
        return Err(d.error);
      }
      OutputsStep(prior, done, d.value, lines0);
      if d.value.Build? {
        args := Put(args, d.value.key, Scalar(d.value.value));
        lines := lines + [BuildLine(d.value.kind, d.value.key, d.value.value)];
      } else {
        commands := commands + [d.value.text];
      }
      done := done + [d.value];
      i := i + 1;
    }
    return Ok(Batch(lines, args, commands));
  }

  /** One job as the script compiles it: the two lists in turn, then the two `RUN` lines. */
  method CompileJob(job: Value, header: seq<string>, interp: Interp, vars: Option<Value>) returns (r: Result<JobOut>)
    ensures r == JobSpec(job, header, interp, vars)
  {
    var before := Prop(Some(job), "before_script");
    if before.Err? {
      return Err(before.error);
    }
    var beforeList := AsList(before.value, "before_script");
    if beforeList.Err? {
      return Err(beforeList.error);
    }
    var classify := LineFn(interp, vars);
    var first := ClassifyList(beforeList.value, classify, [], header, []);
    if first.Err? {
      return Err(first.error);
    }
    ghost var ds1 := ClassifyFrom(beforeList.value, classify, []).value;
    assert [] + ds1 == ds1;
    var scriptList := AsList(Field(job, "script"), "script");
    if scriptList.Err? {
      return Err(scriptList.error);
    }
    var second := ClassifyList(scriptList.value, classify, ds1, first.value.lines, first.value.args);
    if second.Err? {
      return Err(second.error);
    }
    ghost var ds2 := ClassifyFrom(scriptList.value, classify, []).value;
    BuildLinesAppend(ds1, ds2);
    Seqs.AppendAssoc(header, BuildLines(ds1), BuildLines(ds2));
    var lines := second.value.lines
                 + ["RUN " + Text.Join(first.value.commands, " && "), "RUN " + Text.Join(second.value.commands, " && ")];
    return Ok(JobOut(lines, second.value.args));
  }

  /**
   * The walk over `Object.keys(yamlObject)` (index.js:164-208): a matching entry
   * first gets a service with empty build arguments, which its compiled lines then
   * fill in, and its Dockerfile.
   */
  method CreateJobs(doc: Obj, ctx: Ctx, header: seq<string>, interp: Interp, vars: Option<Value>, services0: Obj)
    returns (r: Result<Plan>)
    ensures r == JobsFrom(doc, Keys(doc), 0, ctx, JobFn(header, interp, vars), Plan(services0, []))
  {
    var keys := Keys(doc);
    ghost var compile := JobFn(header, interp, vars);
    var services, files := services0, [];
    var i := 0;
    assert keys[0..] == keys;
    while i < |keys|
      invariant 0 <= i <= |keys|
      invariant JobsFrom(doc, keys, 0, ctx, compile, Plan(services0, []))
             == JobsFrom(doc, keys[i..], i, ctx, compile, Plan(services, files))
    {
      var key := keys[i];
      ghost var step := JobStep(doc, key, i, ctx, compile, Plan(services, files));
      JobsFromStep(doc, keys, i, ctx, compile, Plan(services, files));
      JobStepCases(doc, key, i, ctx, compile, Plan(services, files));
      var matches := StageMatches(doc, key, ctx.stage);
      if matches.Err? {
        return Err(matches.error);
      }
      if matches.value {
        var path := JobPath(ctx.project, i, ctx.stage, key);
        ghost var before := services;
        services := Put(services, key, JobService(path, [], ctx.mount));
        var out := CompileJob(Get(doc, key).value, header, interp, vars);
        assert out == compile(Get(doc, key).value);
        if out.Err? {
          return Err(out.error);
        }
        services := Put(services, key, JobService(path, out.value.args, ctx.mount));
        PutTwice(before, key, JobService(path, [], ctx.mount), JobService(path, out.value.args, ctx.mount));
        files := files + [File(path, out.value.lines)];
      }
      assert step == Ok(Plan(services, files));
      i := i + 1;
    }
    return Ok(Plan(services, files));
  }

  /**
   * A `create` run on the resolved document (index.js:125-216): no stage compiles
   * nothing; otherwise the base image, the job Dockerfiles, the compose file with the
   * base service first and the launcher.
   */
  function CreateSpec(doc: Obj, cli: Option<string>, choice: int, project: string, interp: Interp): Result<Option<Artifacts>> {
    var selection :- Stages.Select(Get(doc, "stages"), cli, choice);
    if selection.NoStage? then Ok(None)
    else
      var baseImage :- BaseImage(Get(doc, "image"));
      var ctx := Ctx(project, selection.stage, SharedMount);
      var compile := JobFn(Header(project, baseImage), interp, Get(doc, "variables"));
      var plan :- JobsFrom(doc, Keys(doc), 0, ctx, compile, Plan([(baseImage, BaseService(project))], []));
      Ok(Some(Artifacts(BaseFile(project, Get(doc, "image")), plan.files, ComposePath(project, selection.stage),
                        Compose(plan.services, "shared"), File("pipeline.sh", Launcher(project)))))
  }

  method Create(doc: Obj, cli: Option<string>, choice: int, project: string, interp: Interp)
    returns (r: Result<Option<Artifacts>>)
    ensures r == CreateSpec(doc, cli, choice, project, interp)
  {
    var selection := Stages.Select(Get(doc, "stages"), cli, choice);
    if selection.Err? {
      return Err(selection.error);
    }
    if selection.value.NoStage? {
      return Ok(None);
    }
    var image := Get(doc, "image");
    var baseImage := BaseImage(image);
    if baseImage.Err? {
      return Err(baseImage.error);
    }
    var ctx := Ctx(project, selection.value.stage, SharedMount);
    var header := Header(project, baseImage.value);
    var plan := CreateJobs(doc, ctx, header, interp, Get(doc, "variables"), [(baseImage.value, BaseService(project))]);
    if plan.Err? {
      return Err(plan.error);
    }
    var artifacts := Artifacts(BaseFile(project, image), plan.value.files, ComposePath(project, ctx.stage),
                               Compose(plan.value.services, "shared"), File("pipeline.sh", Launcher(project)));
    return Ok(Some(artifacts));
  }

  /** The whole run: only a document with a truthy `include` is resolved and compiled (index.js:121-122). */
  function Compile(root: Obj, files: Includes.Files, fetch: Includes.Fetcher, cli: Option<string>, choice: int,
                   project: string, interp: Interp): Result<Option<Artifacts>> {
    if !Truthy(Get(root, "include")) then Ok(None)
    else
      var doc :- Includes.ResolveIncludes(root, files, fetch);
      CreateSpec(doc, cli, choice, project, interp)
  }

  method Run(root: Obj, files: Includes.Files, fetch: Includes.Fetcher, cli: Option<string>, choice: int,
             project: string, interp: Interp) returns (r: Result<Option<Artifacts>>)
    ensures r == Compile(root, files, fetch, cli, choice, project, interp)
  {
    if !Truthy(Get(root, "include")) {
      return Ok(None);
    }
    var doc := Includes.ParseIncludes(root, files, fetch);
    if doc.Err? {
      return Err(doc.error);
    }
    r := Create(doc.value, cli, choice, project, interp);
  }

  // ---------------------------------------------------------------------------
  // Properties of one job.

  /** `x` is an array whose every item the classifier accepts. */
  predicate ListClassifies(x: Option<Value>, classify: LineClassifier) {
    x.Some? && x.value.Sequence? && forall k :: 0 <= k < |x.value.items| ==> classify(x.value.items[k]).Ok?
  }

  /**
   * A job compiles iff both `before_script` and `script` are arrays of lines the
   * classifier accepts; a missing list, a non-string line or an assignment without
   * `=` makes it throw.
   */
  lemma JobSpecOk(job: Value, header: seq<string>, interp: Interp, vars: Option<Value>)
    ensures JobSpec(job, header, interp, vars).Ok?
        <==> ListClassifies(Field(job, "before_script"), LineFn(interp, vars))
             && ListClassifies(Field(job, "script"), LineFn(interp, vars))
  {
    var f := LineFn(interp, vars);
    var before := Field(job, "before_script");
    if before.Some? && before.value.Sequence? {
      ClassifyFromFacts(before.value.items, f, []);
      var script := Field(job, "script");
      if script.Some? && script.value.Sequence? {
        ClassifyFromFacts(script.value.items, f, []);
      }
    }
  }

  /**
   * The command lines of one list, independent of the classifier: every string item
   * as the classifier sees it, unless it then starts with `export ` or `set `, in order.
   */
  function CommandTexts(items: seq<Value>, interp: Interp, vars: Option<Value>): seq<string> {
    if |items| == 0 then []
    else
      var last := items[|items| - 1];
      var text := if last.Scalar? then Interpolated(last.text, interp, vars) else "";
      CommandTexts(items[..|items| - 1], interp, vars)
        + if last.Scalar? && !Text.StartsWith(text, "export ") && !Text.StartsWith(text, "set ") then [text] else []
  }

  /** The commands of a classified list are its command lines. */
  lemma {:induction false} CommandsClassified(items: seq<Value>, ds: seq<Directive>, interp: Interp, vars: Option<Value>)
    requires |ds| == |items| && forall k :: 0 <= k < |items| ==> ClassifyLine(items[k], interp, vars) == Ok(ds[k])
    ensures CommandsOf(ds) == CommandTexts(items, interp, vars)
    decreases |items|
  {
    if |items| > 0 {
      var n := |items| - 1;
      var init, initDs := items[..n], ds[..n];
      forall k | 0 <= k < n
        ensures ClassifyLine(init[k], interp, vars) == Ok(initDs[k])
      {
        assert init[k] == items[k] && initDs[k] == ds[k];
      }
      CommandsClassified(init, initDs, interp, vars);
      CommandStep(items[n], ds[n], interp, vars);
    }
  }

  /** One classified line adds a command iff it is a command line, and then adds that line. */
  lemma CommandStep(item: Value, d: Directive, interp: Interp, vars: Option<Value>)
    requires ClassifyLine(item, interp, vars) == Ok(d)
    ensures (if d.Command? then [d.text] else [])
         == if item.Scalar? && !Text.StartsWith(Interpolated(item.text, interp, vars), "export ")
               && !Text.StartsWith(Interpolated(item.text, interp, vars), "set ")
            then [Interpolated(item.text, interp, vars)] else []
  {
    var c := Interpolated(item.text, interp, vars);
    assert ClassifyLine(item, interp, vars) == Classified(c, StripAsWritten(c));
    ClassifiedCommand(c, StripAsWritten(c));
  }

  /** A classified line is a command iff it starts with neither prefix, and the command is the line itself. */
  lemma ClassifiedCommand(content: string, stripped: string)
    requires Classified(content, stripped).Ok?
    ensures Classified(content, stripped).value.Command?
        <==> !Text.StartsWith(content, "export ") && !Text.StartsWith(content, "set ")
    ensures Classified(content, stripped).value.Command? ==> Classified(content, stripped).value.text == content
  {
  }

  /** The directives of one list that compiles, and their commands as its command lines. */
  lemma ListOutputs(items: seq<Value>, interp: Interp, vars: Option<Value>)
    requires ClassifyFrom(items, LineFn(interp, vars), []).Ok?
    ensures CommandsOf(ClassifyFrom(items, LineFn(interp, vars), []).value) == CommandTexts(items, interp, vars)
  {
    var f := LineFn(interp, vars);
    var ds := ClassifyFrom(items, f, []).value;
    ClassifyFromFacts(items, f, []);
    forall k | 0 <= k < |items|
      ensures ClassifyLine(items[k], interp, vars) == Ok(ds[k])
    {
      assert f(items[k]) == Ok(ds[k]);
    }
    CommandsClassified(items, ds, interp, vars);
  }

  /**
   * A compiled Dockerfile is the header, then the `ARG`/`ENV` lines of `before_script`
   * followed by those of `script`, then exactly two `RUN` lines: the command lines of
   * `before_script` joined by ` && `, then those of `script`.
   */
  lemma JobSpecLayout(job: Value, header: seq<string>, interp: Interp, vars: Option<Value>)
    requires JobSpec(job, header, interp, vars).Ok?
    ensures var lines := JobSpec(job, header, interp, vars).value.lines;
            var before := Field(job, "before_script").value.items;
            var script := Field(job, "script").value.items;
            && |header| + 2 <= |lines| && lines[..|header|] == header
            && (forall i :: |header| <= i < |lines| - 2 ==> Text.StartsWith(lines[i], "ARG ") || Text.StartsWith(lines[i], "ENV "))
            && lines[|header|..|lines| - 2]
               == BuildLines(ClassifyFrom(before, LineFn(interp, vars), []).value)
                  + BuildLines(ClassifyFrom(script, LineFn(interp, vars), []).value)
            && lines[|lines| - 2] == "RUN " + Text.Join(CommandTexts(before, interp, vars), " && ")
            && lines[|lines| - 1] == "RUN " + Text.Join(CommandTexts(script, interp, vars), " && ")
  {
    var f := LineFn(interp, vars);
    var before := Field(job, "before_script").value.items;
    var script := Field(job, "script").value.items;
    var ds1 := ClassifyFrom(before, f, []).value;
    var ds2 := ClassifyFrom(script, f, []).value;
    ListOutputs(before, interp, vars);
    ListOutputs(script, interp, vars);
    BuildLinesAppend(ds1, ds2);
    var build := BuildLines(ds1 + ds2);
    var runs := ["RUN " + Text.Join(CommandsOf(ds1), " && "), "RUN " + Text.Join(CommandsOf(ds2), " && ")];
    var lines := JobSpec(job, header, interp, vars).value.lines;
    assert lines == header + build + runs;
    assert lines[|header|..|lines| - 2] == build;
    RunLayout(header, build, Text.Join(CommandsOf(ds1), " && "), Text.Join(CommandsOf(ds2), " && "));
  }

  /** The header, build lines that all start with `ARG ` or `ENV `, then two `RUN` lines. */
  lemma RunLayout(header: seq<string>, build: seq<string>, before: string, script: string)
    requires forall i :: 0 <= i < |build| ==> Text.StartsWith(build[i], "ARG ") || Text.StartsWith(build[i], "ENV ")
    ensures var lines := header + build + ["RUN " + before, "RUN " + script];
            && |header| + 2 <= |lines| && lines[..|header|] == header
            && (forall i :: |header| <= i < |lines| - 2 ==> Text.StartsWith(lines[i], "ARG ") || Text.StartsWith(lines[i], "ENV "))
            && Text.StartsWith(lines[|lines| - 2], "RUN ") && Text.StartsWith(lines[|lines| - 1], "RUN ")
  {
    var lines := header + build + ["RUN " + before, "RUN " + script];
    assert forall i :: |header| <= i < |lines| - 2 ==> lines[i] == build[i - |header|];
    assert lines[|lines| - 2] == "RUN " + before && lines[|lines| - 1] == "RUN " + script;
    assert ("RUN " + before)[..4] == "RUN " && ("RUN " + script)[..4] == "RUN ";
  }

  // ---------------------------------------------------------------------------
  // Properties of a run.

  /** Without a truthy `include` the later compiler writes nothing at all. */
  lemma NoIncludeNoArtifacts(root: Obj, files: Includes.Files, fetch: Includes.Fetcher, cli: Option<string>, choice: int,
                             project: string, interp: Interp)
    requires !Truthy(Get(root, "include"))
    ensures Compile(root, files, fetch, cli, choice, project, interp) == Ok(None)
  {
  }

  /** A run on the resolved document writes nothing exactly when no stage is selected. */
  lemma CreateNothingIffNoStage(doc: Obj, cli: Option<string>, choice: int, project: string, interp: Interp)
    ensures CreateSpec(doc, cli, choice, project, interp) == Ok(None)
        <==> Stages.Select(Get(doc, "stages"), cli, choice) == Ok(Stages.NoStage)
  {
  }

  /**
   * With a stage named on the command line, a run writes nothing iff the name is
   * missing from the resolved stage list: the root's stages, those of the local
   * fragments and those of the templates.
   */
  lemma CompileNamedStage(root: Obj, files: Includes.Files, fetch: Includes.Fetcher, name: string, choice: int,
                          project: string, interp: Interp)
    requires name != "" && Truthy(Get(root, "include"))
    requires Includes.ResolveIncludes(root, files, fetch).Ok?
    ensures Compile(root, files, fetch, Some(name), choice, project, interp) == Ok(None)
        <==> Scalar(name) !in Includes.RootStages(root)
                              + Includes.AllStages(Includes.LocalFragments(Includes.IncludeItems(root), files))
                              + Includes.AllStages(Includes.Fetched(root, fetch))
  {
    var doc := Includes.ResolveIncludes(root, files, fetch).value;
    var all := Includes.RootStages(root)
               + Includes.AllStages(Includes.LocalFragments(Includes.IncludeItems(root), files))
               + Includes.AllStages(Includes.Fetched(root, fetch));
    Includes.ResolvedStages(root, files, fetch);
    var listed := Seqs.Dedupe(all);
    assert Scalar(name) in listed <==> Scalar(name) in all;
    Stages.SelectNamed(listed, name, choice);
    CreateNothingIffNoStage(doc, Some(name), choice, project, interp);
  }

  /** What a run that writes something is made of: the selected stage, the base image and the walk's plan. */
  lemma CreateParts(doc: Obj, cli: Option<string>, choice: int, project: string, interp: Interp)
    returns (stage: Option<Value>, baseImage: string, plan: Plan)
    requires CreateSpec(doc, cli, choice, project, interp).Ok?
    requires CreateSpec(doc, cli, choice, project, interp).value.Some?
    ensures Stages.Select(Get(doc, "stages"), cli, choice).Ok?
    ensures Stages.Select(Get(doc, "stages"), cli, choice).value.Selected?
    ensures stage == Stages.Select(Get(doc, "stages"), cli, choice).value.stage
    ensures BaseImage(Get(doc, "image")) == Ok(baseImage)
    ensures JobsFrom(doc, Keys(doc), 0, Ctx(project, stage, SharedMount),
                     JobFn(Header(project, baseImage), interp, Get(doc, "variables")),
                     Plan([(baseImage, BaseService(project))], [])) == Ok(plan)
    ensures CreateSpec(doc, cli, choice, project, interp).value.value
         == Artifacts(BaseFile(project, Get(doc, "image")), plan.files, ComposePath(project, stage),
                      Compose(plan.services, "shared"), File("pipeline.sh", Launcher(project)))
  {
    stage := Stages.Select(Get(doc, "stages"), cli, choice).value.stage;
    baseImage := BaseImage(Get(doc, "image")).value;
    plan := JobsFrom(doc, Keys(doc), 0, Ctx(project, stage, SharedMount),
                     JobFn(Header(project, baseImage), interp, Get(doc, "variables")),
                     Plan([(baseImage, BaseService(project))], [])).value;
  }

  /**
   * The job Dockerfiles of a run are those of the entries whose `stage` is the
   * selected one, in key order, each named after its position and key.
   */
  lemma CreateJobFiles(doc: Obj, cli: Option<string>, choice: int, project: string, interp: Interp)
    requires CreateSpec(doc, cli, choice, project, interp).Ok?
    requires CreateSpec(doc, cli, choice, project, interp).value.Some?
    ensures var stage := Stages.Select(Get(doc, "stages"), cli, choice).value.stage;
            var ctx := Ctx(project, stage, SharedMount);
            var compile := JobFn(Header(project, BaseImage(Get(doc, "image")).value), interp, Get(doc, "variables"));
            CreateSpec(doc, cli, choice, project, interp).value.value.jobs
            == MatchedFiles(doc, Matching(doc, Keys(doc), 0, stage), ctx, compile)
  {
    var stage, baseImage, plan := CreateParts(doc, cli, choice, project, interp);
    JobsFiles(doc, Keys(doc), 0, Ctx(project, stage, SharedMount),
              JobFn(Header(project, baseImage), interp, Get(doc, "variables")),
              Plan([(baseImage, BaseService(project))], []));
  }

  /** Every Dockerfile this compiler makes starts with its header. */
  lemma JobFnHeader(header: seq<string>, interp: Interp, vars: Option<Value>)
    ensures forall v :: JobFn(header, interp, vars)(v).Ok? ==> header <= JobFn(header, interp, vars)(v).value.lines
  {
    forall v | JobSpec(v, header, interp, vars).Ok?
      ensures header <= JobSpec(v, header, interp, vars).value.lines
    {
      JobSpecLayout(v, header, interp, vars);
    }
  }

  /**
   * The compose file of a run lists the base image's service first, and every job
   * Dockerfile starts `FROM <project without dots>_<that service>`, the image compose
   * builds for it.
   */
  lemma CreateBaseFirst(doc: Obj, cli: Option<string>, choice: int, project: string, interp: Interp)
    returns (services: Obj)
    requires CreateSpec(doc, cli, choice, project, interp).Ok?
    requires CreateSpec(doc, cli, choice, project, interp).value.Some?
    ensures var a := CreateSpec(doc, cli, choice, project, interp).value.value;
            && a.compose == Compose(services, "shared")
            && 0 < |services| && services[0].0 == BaseImage(Get(doc, "image")).value
            && forall f :: f in a.jobs ==>
                 2 <= |f.lines| && f.lines[0] == "FROM " + Text.RemoveChar(project, '.') + "_" + services[0].0
  {
    var stage, baseImage, plan := CreateParts(doc, cli, choice, project, interp);
    services := plan.services;
    var header := Header(project, baseImage);
    var compile := JobFn(header, interp, Get(doc, "variables"));
    WalkFirstService(doc, Keys(doc), 0, Ctx(project, stage, SharedMount), compile, baseImage, BaseService(project));
    JobFnHeader(header, interp, Get(doc, "variables"));
    WalkFilesStart(doc, Keys(doc), 0, Ctx(project, stage, SharedMount), compile, Plan([(baseImage, BaseService(project))], []), header);
  }

  /**
   * Each entry of the selected stage has a compose service named after its key that
   * builds its Dockerfile, `<idx>-<stage>.<key>`, with its build arguments.
   */
  lemma CreateJobServices(doc: Obj, cli: Option<string>, choice: int, project: string, interp: Interp, j: nat)
    returns (services: Obj)
    requires UniqueKeys(doc) && j < |doc|
    requires CreateSpec(doc, cli, choice, project, interp).Ok?
    requires CreateSpec(doc, cli, choice, project, interp).value.Some?
    requires StageMatches(doc, doc[j].0, Stages.Select(Get(doc, "stages"), cli, choice).value.stage) == Ok(true)
    ensures CreateSpec(doc, cli, choice, project, interp).value.value.compose == Compose(services, "shared")
    ensures var stage := Stages.Select(Get(doc, "stages"), cli, choice).value.stage;
            var job := JobSpec(doc[j].1, Header(project, BaseImage(Get(doc, "image")).value), interp, Get(doc, "variables"));
            && job.Ok?
            && Get(services, doc[j].0) == Some(JobService(JobPath(project, j, stage, doc[j].0), job.value.args, SharedMount))
  {
    var stage, baseImage, plan := CreateParts(doc, cli, choice, project, interp);
    services := plan.services;
    var compile := JobFn(Header(project, baseImage), interp, Get(doc, "variables"));
    WalkServiceOf(doc, Ctx(project, stage, SharedMount), compile, Plan([(baseImage, BaseService(project))], []), j);
  }

  /**
   * Only the base image and the entries of the selected stage have compose services:
   * no other key, whatever its entry holds, gets one.
   */
  lemma CreateOnlyMatching(doc: Obj, cli: Option<string>, choice: int, project: string, interp: Interp, k: string)
    returns (services: Obj)
    requires CreateSpec(doc, cli, choice, project, interp).Ok?
    requires CreateSpec(doc, cli, choice, project, interp).value.Some?
    requires k != BaseImage(Get(doc, "image")).value
    requires StageMatches(doc, k, Stages.Select(Get(doc, "stages"), cli, choice).value.stage) != Ok(true)
    ensures CreateSpec(doc, cli, choice, project, interp).value.value.compose == Compose(services, "shared")
    ensures Get(services, k).None?
  {
    var stage, baseImage, plan := CreateParts(doc, cli, choice, project, interp);
    services := plan.services;
    JobsOnlyMatching(doc, Keys(doc), 0, Ctx(project, stage, SharedMount),
                     JobFn(Header(project, baseImage), interp, Get(doc, "variables")),
                     Plan([(baseImage, BaseService(project))], []), k);
  }
}
