/**
 * What both compilers share once a stage is chosen (index.js:136-209,
 * pipeline.js:74-130): the compose document they build, the base Dockerfile, and
 * the walk over `Object.keys(yamlObject)` that compiles every top-level entry whose
 * `stage` is the chosen one. How a single job is compiled differs between the two
 * and is the parameter `compile`.
 */
module Jobs {
  import opened Wrappers
  import opened Yaml
  import Text
  import Seqs

  /** A file the compiler writes: its path and its lines, written joined with newlines. */
  datatype File = File(path: string, lines: seq<string>)

  /** A compiled job: its Dockerfile lines and the build arguments of its compose service. */
  datatype JobOut = JobOut(lines: seq<string>, args: Obj)

  type JobCompiler = Value -> Result<JobOut>

  /** What every job of one run shares: the project directory, the chosen stage and the volume mount of job services. */
  datatype Ctx = Ctx(project: string, stage: Option<Value>, mount: string)

  /** The state of the walk: the compose `services` object and the job Dockerfiles written so far. */
  datatype Plan = Plan(services: Obj, files: seq<File>)

  /** Everything one `create` run writes. */
  datatype Artifacts = Artifacts(base: File, jobs: seq<File>, composePath: string, compose: Value, launcher: File)

  /** `<idx>-<stage>.<key>`: the job's name, from its position among all top-level keys. */
  function JobName(idx: nat, stage: Option<Value>, key: string): string {
    Text.NatToString(idx) + "-" + ShowOpt(stage) + "." + key
  }

  function JobPath(project: string, idx: nat, stage: Option<Value>, key: string): string {
    project + "/" + JobName(idx, stage, key) + ".Dockerfile"
  }

  function ComposePath(project: string, stage: Option<Value>): string {
    project + "/docker-compose." + ShowOpt(stage) + ".yml"
  }

  /** The base image Dockerfile: the document's `image`, with the working tree copied to `/source`. */
  function BaseFile(project: string, image: Option<Value>): File {
    File(project + "/Dockerfile", ["FROM " + ShowOpt(image), "WORKDIR /source", "VOLUME /source", "COPY . /source"])
  }

  /** The first two lines of every job Dockerfile: the base image as compose names it, and the working directory. */
  function Header(project: string, baseImage: string): seq<string> {
    ["FROM " + Text.RemoveChar(project, '.') + "_" + baseImage, "WORKDIR /source"]
  }

  /** A compose `build` section: context `../`, the Dockerfile and the build arguments. */
  function BuildSpec(dockerfile: string, args: Obj): Value {
    Mapping([("context", Scalar("../")), ("dockerfile", Scalar(dockerfile)), ("args", Mapping(args))])
  }

  function BaseService(project: string): Value {
    Mapping([("build", BuildSpec(project + "/Dockerfile", []))])
  }

  function JobService(dockerfile: string, args: Obj, mount: string): Value {
    Mapping([("build", BuildSpec(dockerfile, args)), ("volumes", Sequence([Scalar(mount)]))])
  }

  /** A local volume bound to the directory compose is started from. */
  function BindVolume(): Value {
    Mapping([("driver", Scalar("local")),
             ("driver_opts", Mapping([("type", Scalar("none")), ("device", Scalar("$PWD")), ("o", Scalar("bind"))]))])
  }

  /** `{ version: '3.8', services, volumes }` with the one bind volume. */
  function Compose(services: Obj, volume: string): Value {
    Mapping([("version", Scalar("3.8")), ("services", Mapping(services)), ("volumes", Mapping([(volume, BindVolume())]))])
  }

  /** `yamlObject[key].stage === executedStage`; reading `.stage` of a `null` entry throws. */
  function StageMatches(doc: Obj, key: string, stage: Option<Value>): (r: Result<bool>)
    ensures r.Err? <==> Get(doc, key).None? || Get(doc, key).value.Null?
    ensures r.Ok? ==> (r.value <==> Field(Get(doc, key).value, "stage") == stage)
  {
    var own :- Prop(Get(doc, key), "stage");
    Ok(own == stage)
  }

  /** One visit of the walk: a matching entry gets its compose service and its Dockerfile. */
  function JobStep(doc: Obj, key: string, idx: nat, ctx: Ctx, compile: JobCompiler, plan: Plan): Result<Plan> {
    var matches :- StageMatches(doc, key, ctx.stage);
    if !matches then Ok(plan)
    else
      var path := JobPath(ctx.project, idx, ctx.stage, key);
      var out :- compile(Get(doc, key).value);
      Ok(Plan(Put(plan.services, key, JobService(path, out.args, ctx.mount)), plan.files + [File(path, out.lines)]))
  }

  /** The walk over the keys still to visit; `idx` is the position of the first of them. */
  function JobsFrom(doc: Obj, keys: seq<string>, idx: nat, ctx: Ctx, compile: JobCompiler, plan: Plan): Result<Plan>
    decreases |keys|
  {
    if |keys| == 0 then Ok(plan)
    else
      var next :- JobStep(doc, keys[0], idx, ctx, compile, plan);
      JobsFrom(doc, keys[1..], idx + 1, ctx, compile, next)
  }

  /** The positions and keys of the entries whose `stage` is the chosen one. */
  function Matching(doc: Obj, keys: seq<string>, idx: nat, stage: Option<Value>): seq<(nat, string)> {
    if |keys| == 0 then []
    else
      var rest := Matching(doc, keys[1..], idx + 1, stage);
      if StageMatches(doc, keys[0], stage) == Ok(true) then [(idx, keys[0])] + rest else rest
  }

  /** `m` names the key at its position among `keys` (which start at `idx`), and that entry's stage matches. */
  predicate ListedAt(doc: Obj, keys: seq<string>, idx: nat, stage: Option<Value>, m: (nat, string)) {
    idx <= m.0 < idx + |keys| && keys[m.0 - idx] == m.1 && StageMatches(doc, m.1, stage) == Ok(true)
  }

  /** Every position `Matching` lists lies among the keys, at its key. */
  lemma {:induction false} MatchingIn(doc: Obj, keys: seq<string>, idx: nat, stage: Option<Value>)
    ensures forall t :: 0 <= t < |Matching(doc, keys, idx, stage)| ==>
              ListedAt(doc, keys, idx, stage, Matching(doc, keys, idx, stage)[t])
    decreases |keys|
  {
    if |keys| > 0 {
      var rest := Matching(doc, keys[1..], idx + 1, stage);
      MatchingIn(doc, keys[1..], idx + 1, stage);
      var ms := Matching(doc, keys, idx, stage);
      var hit := StageMatches(doc, keys[0], stage) == Ok(true);
      assert ms == if hit then [(idx, keys[0])] + rest else rest;
      forall t | 0 <= t < |ms|
        ensures ListedAt(doc, keys, idx, stage, ms[t])
      {
        if !hit || t > 0 {
          var r := if hit then t - 1 else t;
          assert ms[t] == rest[r];
          assert ListedAt(doc, keys[1..], idx + 1, stage, rest[r]);
          assert keys[1..][rest[r].0 - idx - 1] == keys[rest[r].0 - idx];
        }
      }
    }
  }

  /** The Dockerfile each listed entry compiles to, at `<project>/<idx>-<stage>.<key>.Dockerfile`. */
  function MatchedFiles(doc: Obj, ms: seq<(nat, string)>, ctx: Ctx, compile: JobCompiler): seq<File> {
    if |ms| == 0 then []
    else
      var job := Get(doc, ms[0].1);
      var here := if job.Some? && compile(job.value).Ok?
                  then [File(JobPath(ctx.project, ms[0].0, ctx.stage, ms[0].1), compile(job.value).value.lines)]
                  else [];
      here + MatchedFiles(doc, ms[1..], ctx, compile)
  }

  /**
   * The walk writes one Dockerfile per matching entry, in key order, named after
   * the entry's position and key and holding what `compile` makes of the entry.
   */
  lemma {:induction false} JobsFiles(doc: Obj, keys: seq<string>, idx: nat, ctx: Ctx, compile: JobCompiler, plan: Plan)
    requires JobsFrom(doc, keys, idx, ctx, compile, plan).Ok?
    ensures JobsFrom(doc, keys, idx, ctx, compile, plan).value.files
         == plan.files + MatchedFiles(doc, Matching(doc, keys, idx, ctx.stage), ctx, compile)
    ensures |MatchedFiles(doc, Matching(doc, keys, idx, ctx.stage), ctx, compile)| == |Matching(doc, keys, idx, ctx.stage)|
    decreases |keys|
  {
    if |keys| == 0 {
      assert plan.files + [] == plan.files;
    } else {
      var next := JobStep(doc, keys[0], idx, ctx, compile, plan).value;
      JobsFiles(doc, keys[1..], idx + 1, ctx, compile, next);
      var rest := Matching(doc, keys[1..], idx + 1, ctx.stage);
      if StageMatches(doc, keys[0], ctx.stage) == Ok(true) {
        var f := JobStepMatched(doc, keys[0], idx, ctx, compile, plan);
        MatchedFilesCons(doc, (idx, keys[0]), rest, ctx, compile);
        Seqs.AppendAssoc(plan.files, [f], MatchedFiles(doc, rest, ctx, compile));
      }
    }
  }

  /** A matching entry adds its Dockerfile to the ones written before. */
  lemma JobStepMatched(doc: Obj, key: string, idx: nat, ctx: Ctx, compile: JobCompiler, plan: Plan) returns (f: File)
    requires StageMatches(doc, key, ctx.stage) == Ok(true)
    requires JobStep(doc, key, idx, ctx, compile, plan).Ok?
    ensures Get(doc, key).Some? && compile(Get(doc, key).value).Ok?
    ensures f == File(JobPath(ctx.project, idx, ctx.stage, key), compile(Get(doc, key).value).value.lines)
    ensures JobStep(doc, key, idx, ctx, compile, plan).value.files == plan.files + [f]
  {
    f := File(JobPath(ctx.project, idx, ctx.stage, key), compile(Get(doc, key).value).value.lines);
  }

  lemma MatchedFilesCons(doc: Obj, m: (nat, string), rest: seq<(nat, string)>, ctx: Ctx, compile: JobCompiler)
    requires Get(doc, m.1).Some? && compile(Get(doc, m.1).value).Ok?
    ensures MatchedFiles(doc, [m] + rest, ctx, compile)
         == [File(JobPath(ctx.project, m.0, ctx.stage, m.1), compile(Get(doc, m.1).value).value.lines)]
            + MatchedFiles(doc, rest, ctx, compile)
  {
    assert ([m] + rest)[0] == m && ([m] + rest)[1..] == rest;
  }

  /**
   * Every matching entry has a compose service named after its key that builds its
   * Dockerfile; `key` is the one at position `j` among the keys visited, `pos` its
   * position among all keys.
   */
  lemma {:induction false} JobsService(doc: Obj, keys: seq<string>, idx: nat, ctx: Ctx, compile: JobCompiler, plan: Plan,
                                       j: nat, key: string, pos: nat)
    requires JobsFrom(doc, keys, idx, ctx, compile, plan).Ok?
    requires Seqs.Distinct(keys) && j < |keys| && keys[j] == key && pos == idx + j
    requires StageMatches(doc, key, ctx.stage) == Ok(true)
    ensures compile(Get(doc, key).value).Ok?
    ensures Get(JobsFrom(doc, keys, idx, ctx, compile, plan).value.services, key)
         == Some(JobService(JobPath(ctx.project, pos, ctx.stage, key), compile(Get(doc, key).value).value.args, ctx.mount))
    decreases |keys|
  {
    if j == 0 {
      JobsServiceHead(doc, keys, idx, ctx, compile, plan);
    } else {
      WalkCons(doc, keys, idx, ctx, compile, plan);
      Seqs.DistinctTail(keys);
      assert keys[1..][j - 1] == key;
      JobsService(doc, keys[1..], idx + 1, ctx, compile, JobStep(doc, keys[0], idx, ctx, compile, plan).value, j - 1, key, pos);
    }
  }

  /** The first key visited, when it matches, keeps the service its visit gives it. */
  lemma JobsServiceHead(doc: Obj, keys: seq<string>, idx: nat, ctx: Ctx, compile: JobCompiler, plan: Plan)
    requires JobsFrom(doc, keys, idx, ctx, compile, plan).Ok?
    requires Seqs.Distinct(keys) && 0 < |keys|
    requires StageMatches(doc, keys[0], ctx.stage) == Ok(true)
    ensures compile(Get(doc, keys[0]).value).Ok?
    ensures Get(JobsFrom(doc, keys, idx, ctx, compile, plan).value.services, keys[0])
         == Some(JobService(JobPath(ctx.project, idx, ctx.stage, keys[0]),
                            compile(Get(doc, keys[0]).value).value.args, ctx.mount))
  {
    WalkCons(doc, keys, idx, ctx, compile, plan);
    Seqs.DistinctTail(keys);
    JobStepService(doc, keys[0], idx, ctx, compile, plan);
    JobsUntouched(doc, keys[1..], idx + 1, ctx, compile, JobStep(doc, keys[0], idx, ctx, compile, plan).value, keys[0]);
  }

  /** A matching visit gives its key the service that builds its Dockerfile. */
  lemma JobStepService(doc: Obj, key: string, idx: nat, ctx: Ctx, compile: JobCompiler, plan: Plan)
    requires StageMatches(doc, key, ctx.stage) == Ok(true)
    requires JobStep(doc, key, idx, ctx, compile, plan).Ok?
    ensures compile(Get(doc, key).value).Ok?
    ensures Get(JobStep(doc, key, idx, ctx, compile, plan).value.services, key)
         == Some(JobService(JobPath(ctx.project, idx, ctx.stage, key), compile(Get(doc, key).value).value.args, ctx.mount))
  {
    JobStepCases(doc, key, idx, ctx, compile, plan);
  }

  /** A walk that succeeds takes its first step and continues from there. */
  lemma WalkCons(doc: Obj, keys: seq<string>, idx: nat, ctx: Ctx, compile: JobCompiler, plan: Plan)
    requires 0 < |keys| && JobsFrom(doc, keys, idx, ctx, compile, plan).Ok?
    ensures JobStep(doc, keys[0], idx, ctx, compile, plan).Ok?
    ensures JobsFrom(doc, keys, idx, ctx, compile, plan)
         == JobsFrom(doc, keys[1..], idx + 1, ctx, compile, JobStep(doc, keys[0], idx, ctx, compile, plan).value)
  {
  }

  /** A visit changes no service but its own key's. */
  lemma JobStepOthers(doc: Obj, key: string, idx: nat, ctx: Ctx, compile: JobCompiler, plan: Plan, k: string)
    requires JobStep(doc, key, idx, ctx, compile, plan).Ok? && k != key
    ensures Get(JobStep(doc, key, idx, ctx, compile, plan).value.services, k) == Get(plan.services, k)
  {
    JobStepCases(doc, key, idx, ctx, compile, plan);
  }

  /** A key the walk does not visit keeps its service. */
  lemma {:induction false} JobsUntouched(doc: Obj, keys: seq<string>, idx: nat, ctx: Ctx, compile: JobCompiler, plan: Plan, k: string)
    requires JobsFrom(doc, keys, idx, ctx, compile, plan).Ok?
    requires k !in keys
    ensures Get(JobsFrom(doc, keys, idx, ctx, compile, plan).value.services, k) == Get(plan.services, k)
    decreases |keys|
  {
    if |keys| > 0 {
      WalkCons(doc, keys, idx, ctx, compile, plan);
      assert k !in keys[1..];
      JobsUntouched(doc, keys[1..], idx + 1, ctx, compile, JobStep(doc, keys[0], idx, ctx, compile, plan).value, k);
      JobStepOthers(doc, keys[0], idx, ctx, compile, plan, k);
    }
  }

  /**
   * Only matching entries get a service: a key whose entry's `stage` is not the
   * chosen one, visited or not, keeps the service it had before the walk.
   */
  lemma {:induction false} JobsOnlyMatching(doc: Obj, keys: seq<string>, idx: nat, ctx: Ctx, compile: JobCompiler, plan: Plan, k: string)
    requires JobsFrom(doc, keys, idx, ctx, compile, plan).Ok?
    requires StageMatches(doc, k, ctx.stage) != Ok(true)
    ensures Get(JobsFrom(doc, keys, idx, ctx, compile, plan).value.services, k) == Get(plan.services, k)
    decreases |keys|
  {
    if |keys| > 0 {
      WalkCons(doc, keys, idx, ctx, compile, plan);
      var next := JobStep(doc, keys[0], idx, ctx, compile, plan).value;
      JobsOnlyMatching(doc, keys[1..], idx + 1, ctx, compile, next, k);
      JobStepCases(doc, keys[0], idx, ctx, compile, plan);
      if keys[0] != k {
        JobStepOthers(doc, keys[0], idx, ctx, compile, plan, k);
      }
    }
  }

  /** Services defined before the walk keep their places in the compose file. */
  lemma {:induction false} JobsKeepServiceOrder(doc: Obj, keys: seq<string>, idx: nat, ctx: Ctx, compile: JobCompiler, plan: Plan)
    requires JobsFrom(doc, keys, idx, ctx, compile, plan).Ok?
    ensures Keys(plan.services) <= Keys(JobsFrom(doc, keys, idx, ctx, compile, plan).value.services)
    decreases |keys|
  {
    if |keys| > 0 {
      WalkCons(doc, keys, idx, ctx, compile, plan);
      var next := JobStep(doc, keys[0], idx, ctx, compile, plan).value;
      JobStepKeepsOrder(doc, keys[0], idx, ctx, compile, plan);
      JobsKeepServiceOrder(doc, keys[1..], idx + 1, ctx, compile, next);
      var a, b, c := Keys(plan.services), Keys(next.services),
                     Keys(JobsFrom(doc, keys[1..], idx + 1, ctx, compile, next).value.services);
      assert a == b[..|a|] && b == c[..|b|];
      assert c[..|a|] == b[..|a|];
    }
  }

  /** One visit keeps the services defined before it in their places. */
  lemma JobStepKeepsOrder(doc: Obj, key: string, idx: nat, ctx: Ctx, compile: JobCompiler, plan: Plan)
    requires JobStep(doc, key, idx, ctx, compile, plan).Ok?
    ensures Keys(plan.services) <= Keys(JobStep(doc, key, idx, ctx, compile, plan).value.services)
  {
    JobStepCases(doc, key, idx, ctx, compile, plan);
    if StageMatches(doc, key, ctx.stage) == Ok(true) {
      var out := compile(Get(doc, key).value).value;
      PutKeysPrefix(plan.services, key, JobService(JobPath(ctx.project, idx, ctx.stage, key), out.args, ctx.mount));
    }
  }

  /** A top-level entry whose value is `null` makes the walk throw when it reads its `stage`. */
  lemma {:induction false} JobsNullEntry(doc: Obj, keys: seq<string>, idx: nat, ctx: Ctx, compile: JobCompiler, plan: Plan, j: nat)
    requires j < |keys| && Get(doc, keys[j]) == Some(Null)
    ensures JobsFrom(doc, keys, idx, ctx, compile, plan).Err?
    decreases |keys|
  {
    var step := JobStep(doc, keys[0], idx, ctx, compile, plan);
    if j == 0 {
      JobStepCases(doc, keys[0], idx, ctx, compile, plan);
    } else if step.Ok? {
      assert keys[1..][j - 1] == keys[j];
      JobsNullEntry(doc, keys[1..], idx + 1, ctx, compile, step.value, j - 1);
    }
  }

  /** One step of the walk from the key at position `i`: its error ends the walk, its plan is where the rest starts. */
  lemma JobsFromStep(doc: Obj, keys: seq<string>, i: nat, ctx: Ctx, compile: JobCompiler, plan: Plan)
    requires i < |keys|
    ensures var step := JobStep(doc, keys[i], i, ctx, compile, plan);
            JobsFrom(doc, keys[i..], i, ctx, compile, plan)
            == if step.Err? then Err(step.error) else JobsFrom(doc, keys[i + 1..], i + 1, ctx, compile, step.value)
  {
    assert keys[i..][0] == keys[i];
    assert keys[i..][1..] == keys[i + 1..];
  }

  /** The three outcomes of one visit: the stage read throws, the entry is skipped, or it is compiled. */
  lemma JobStepCases(doc: Obj, key: string, idx: nat, ctx: Ctx, compile: JobCompiler, plan: Plan)
    ensures StageMatches(doc, key, ctx.stage).Err? ==>
              JobStep(doc, key, idx, ctx, compile, plan) == Err(StageMatches(doc, key, ctx.stage).error)
    ensures StageMatches(doc, key, ctx.stage) == Ok(false) ==> JobStep(doc, key, idx, ctx, compile, plan) == Ok(plan)
    ensures StageMatches(doc, key, ctx.stage) == Ok(true) ==>
              var out := compile(Get(doc, key).value);
              var path := JobPath(ctx.project, idx, ctx.stage, key);
              JobStep(doc, key, idx, ctx, compile, plan)
              == if out.Err? then Err(out.error)
                 else Ok(Plan(Put(plan.services, key, JobService(path, out.value.args, ctx.mount)),
                              plan.files + [File(path, out.value.lines)]))
  {
  }

  /** A walk that starts from a single service keeps that service's key first. */
  lemma WalkFirstService(doc: Obj, keys: seq<string>, idx: nat, ctx: Ctx, compile: JobCompiler, first: string, service: Value)
    requires JobsFrom(doc, keys, idx, ctx, compile, Plan([(first, service)], [])).Ok?
    ensures var services := JobsFrom(doc, keys, idx, ctx, compile, Plan([(first, service)], [])).value.services;
            0 < |services| && services[0].0 == first
  {
    JobsKeepServiceOrder(doc, keys, idx, ctx, compile, Plan([(first, service)], []));
    assert Keys([(first, service)]) == [first];
  }

  /** If every compiled job starts with `header`, so does every Dockerfile of the walk. */
  lemma {:induction false} WalkFilesStart(doc: Obj, keys: seq<string>, idx: nat, ctx: Ctx, compile: JobCompiler, plan: Plan,
                                          header: seq<string>)
    requires JobsFrom(doc, keys, idx, ctx, compile, plan).Ok?
    requires forall v :: compile(v).Ok? ==> header <= compile(v).value.lines
    requires forall f :: f in plan.files ==> header <= f.lines
    ensures forall f :: f in JobsFrom(doc, keys, idx, ctx, compile, plan).value.files ==> header <= f.lines
    decreases |keys|
  {
    if |keys| > 0 {
      JobStepCases(doc, keys[0], idx, ctx, compile, plan);
      WalkFilesStart(doc, keys[1..], idx + 1, ctx, compile, JobStep(doc, keys[0], idx, ctx, compile, plan).value, header);
    }
  }

  /** Over the whole document: the `j`-th entry, when its stage matches, has its service under its own key. */
  lemma WalkServiceOf(doc: Obj, ctx: Ctx, compile: JobCompiler, plan: Plan, j: nat)
    requires UniqueKeys(doc) && j < |doc|
    requires JobsFrom(doc, Keys(doc), 0, ctx, compile, plan).Ok?
    requires StageMatches(doc, doc[j].0, ctx.stage) == Ok(true)
    ensures compile(doc[j].1).Ok?
    ensures Get(JobsFrom(doc, Keys(doc), 0, ctx, compile, plan).value.services, doc[j].0)
         == Some(JobService(JobPath(ctx.project, j, ctx.stage, doc[j].0), compile(doc[j].1).value.args, ctx.mount))
  {
    var keys := Keys(doc);
    assert keys[j] == doc[j].0;
    assert Seqs.Distinct(keys);
    GetAt(doc, j);
    assert Get(doc, keys[j]) == Some(doc[j].1);
    JobsService(doc, keys, 0, ctx, compile, plan, j, keys[j], j);
  }
}
