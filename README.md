# simplify-pipeline compiler, modelled in Dafny

simplify-pipeline turns a GitLab CI file (`.gitlab-ci.yml`) into files that run
one stage of the pipeline locally with docker-compose:

- a base `Dockerfile` built from the document's `image`;
- one Dockerfile per job of the chosen stage;
- a `docker-compose.<stage>.yml` with one service per image;
- a launcher script.

The repository holds two versions of this `create` command:

- the later one, `index.js`, first resolves `include` items (local fragments and
  GitLab templates) and merges their `stages`. It turns `set NAME=v` lines into
  `ARG` lines and `export NAME=v` lines into `ENV` lines. It collects the
  remaining commands of `before_script` and of `script` into two `RUN` lines;
- the earlier one, `pipeline.js`, knows only `export`. It gives every other line
  its own `RUN`.

This project models both compilers on an abstract YAML value. Files, the network,
the prompt and variable interpolation become parameters. Each compilation step is
a function that returns the artifacts the script would write, or the exception
that stops it. Where the script works step by step, a method with loop
invariants implements the step and is proved equal to that function. Lemmas then
state what the compilers promise: stage aggregation, last-write-wins merging, job
selection and naming, line classification, Dockerfile layout, compose services,
and the error cases.

Modules:

- `Wrappers` is the result type.
- `Text` holds the JavaScript string operations used, and `Seqs` holds
  `[...new Set(xs)]`.
- `Yaml` is the value model with JavaScript property access, assignment and
  object spread.
- `Includes` is `parseIncludes`, and `Stages` is the stage selection.
- `Scripts` holds the line classifiers of both compilers.
- `Jobs` is the shared walk over the top-level keys.
- `IndexCompile` is the later compiler, and `PipelineCompile` the earlier one.

## Model

| member | source | states |
|---|---|---|
| Includes.ParseIncludes | index.js:54-109 | The loops over include items, template requests and fetched fragments return exactly the document `Includes.ResolveIncludes` defines, or the same exception. |
| Includes.LocalFoldFacts | index.js:59-72 | The include loop spreads exactly the fragments of `local` items whose file exists, in list order. It appends their stages, and it collects the template URL (fixed GitLab prefix + name) of exactly the template items. Other items are ignored, and includes inside fragments are not followed. |
| Includes.FetchAllFacts | index.js:83-89 | `Promise.all` over the template URLs succeeds iff every request does, and then yields the bodies in URL order. |
| Includes.RemoteFoldFacts | index.js:92-97 | Folding in the fetched fragments spreads each of them in order and appends their stages. |
| Includes.FoldRemoteStages | index.js:91-104 | After the loop (`Includes.FoldRemote`), `stages` is the deduplicated concatenation of the collected stages and the templates' stages. |
| Includes.FoldRemoteField | index.js:92-97 | After the loop, every key but `stages` holds the value of the last fetched template that has it, else its value before. |
| Includes.FoldRemoteKeys | index.js:91-98 | The steps after the loop keep the document's keys in their places. |
| Includes.SpreadAllGet | index.js:64 | Spreading fragments one after another is last-write-wins for every key. |
| Includes.SpreadAllKeys | index.js:64 | Spreading keeps the document's own keys first, in order. |
| Includes.SpreadAllAppend | index.js:64 | Spreading two lists of fragments in turn is spreading their concatenation. |
| Includes.AllStagesAppend | index.js:66 | The stages of two fragment lists, concatenated, are those of the concatenated list. |
| Includes.LastWriteAppend | index.js:96 | The last writer of a key over two fragment lists is the last writer over the second, starting from the first. |
| Includes.IncludeStepFacts | index.js:60-71 | One include item (`Includes.IncludeStep`) spreads its existing local fragment, or adds its template URL, and changes nothing else. |
| Includes.ResolvedLoop | index.js:56-104 | A resolved document is the loop's result, stated with the reference definitions of fragments, stages and URLs. |
| Includes.ResolvedStages | index.js:56-102 | Resolved `stages` = dedupe(root stages ++ stages of each existing local fragment ++ stages of each template), in that order. |
| Includes.ResolvedFields | index.js:64-96 | Every other top-level key is last-write-wins over root, local fragments, then templates; the whole value is replaced, `variables` included. |
| Includes.ResolvedKeyOrder | index.js:64-98 | The root's own keys keep their positions, and so their `Object.keys` indices. |
| Includes.ResolvedFetchedAll | index.js:83-100 | A resolved document means every template request succeeded; there is no partial merge. |
| Includes.MissingStagesThrows | index.js:56 | A root whose `stages` is missing, `null` or an object makes `parseIncludes` throw. |
| Seqs.Dedupe | index.js:98 | `[...new Set(xs)]` is duplicate-free and has exactly the elements of `xs`. |
| Seqs.DedupeOrder | index.js:98 | The deduplicated stages keep first-occurrence order. |
| Seqs.DedupeDistinct | index.js:102 | Deduplicating a list without repeats changes nothing. |
| Seqs.DedupePrefix | index.js:91-98 | Deduplicating a longer list only adds elements after the shorter list's. |
| Seqs.IndexOfElem | index.js:132 | `indexOf` gives -1 iff the element is absent, and otherwise its first position. |
| Stages.IndexOfStage | index.js:132 | `stages.indexOf(name)` throws exactly when `stages` is missing, `null` or an object. On an array it gives -1 iff the name is absent, and otherwise the name's first position. On a string it gives -1 or a position where the name occurs. |
| Stages.StageAt | index.js:136 | `stages[index]` is the item at that position, or `undefined` past the end; reading from a missing `stages` throws. |
| Stages.SelectNamed | index.js:132-135 | `Stages.Select` with a stage name compiles that stage iff it is listed, and then at its first position. |
| Stages.SelectPrompted | index.js:126-135 | `Stages.Select` without a name lets the prompt's index decide: -1 (escape) compiles nothing, a listed index compiles that stage. |
| Stages.SelectWithoutStages | pipeline.js:70 | A stage name looked up in a document without `stages` throws. |
| Scripts.BuildLine | index.js:178-179 | The emitted build line starts with `ARG ` or `ENV `. |
| Scripts.SplitAssignment | index.js:176-178 | The key is the trimmed text before the first `=`, and the value the trimmed text up to the second. Without `=`, reading the value throws. |
| Scripts.ExtraSegmentsDropped | index.js:176-178 | Everything after a second `=` is dropped: `A=b=c` assigns `b`. |
| Scripts.StripPrefixKeepsRest | index.js:175 | Corrected prefix removal: `export X` and `set X` leave exactly `X`, whatever `X` contains. |
| Scripts.StripAsWrittenCuts | index.js:175 | As written, the later classifier `Scripts.Classify` reads `export offset = 1` as declaring `off`. The earlier classifier and the corrected one read it as declaring `offset`. |
| Scripts.SetLine | index.js:172-179 | `Scripts.ClassifyLine` never interpolates a `set ` line and declares an `ARG` from it (or throws without `=`). As written, the first `export ` in the rest of the line is cut out before the split. |
| Scripts.ExportLine | index.js:172-179 | A line that is not a `set ` line but interpolates to `export ...` declares an `ENV`. As written, the first `set ` in the rest of the line is cut out before the split. |
| Scripts.CommandLine | index.js:172-182 | `Scripts.ClassifyLine` makes every other line a command, as interpolated. |
| Scripts.ClassifyExportCases | pipeline.js:109-118 | The earlier classifier `Scripts.ClassifyExport` declares an `ENV` for exactly the `export ` lines; all other lines, `set ` lines included, are commands. |
| Scripts.ClassifiersAgree | pipeline.js:109-117 | On every line with no `set ` anywhere in it, the later classifier as written agrees with the earlier one. |
| Scripts.CorrectedDeclares | index.js:172-179 | With the corrected removal (`Scripts.ClassifyCorrected`), `set X` declares an `ARG` and `export X` an `ENV` from exactly `X`, whatever `X` contains. |
| Scripts.CorrectedAgrees | pipeline.js:109-117 | With the corrected removal, the later classifier agrees with the earlier one on every line that does not start with `set `. |
| Scripts.BuildLines | index.js:179 | Every build line of a job starts with `ARG ` or `ENV `. |
| Scripts.ArgsLastWins | index.js:177 | A repeated build-arg key keeps the value of its last declaration. |
| Scripts.ArgsUndeclared | index.js:177 | A key no line declares is not a build argument. |
| Scripts.DirectivesAppend | index.js:177-181 | One more classified line appends its build line or its command, and writes its build argument. |
| Scripts.BuildLinesAppend | index.js:179-193 | The build lines of `before_script` then `script` are those of each list, in that order. |
| Scripts.ClassifyFromFacts | index.js:171-183 | A list compiles iff every line does, and then yields the lines' directives in order. |
| Scripts.EnvLines | pipeline.js:109-115 | Directives that declare only `ENV`s render only `ENV ` lines. |
| Jobs.StageMatches | index.js:163 | Reading `.stage` throws iff the entry is missing or `null`; otherwise a job matches iff its `stage` equals the chosen one. |
| Jobs.MatchingIn | index.js:162-164 | Every listed job is at its own position among all top-level keys, and its stage matches. |
| Jobs.JobsFiles | index.js:162-205 | The walk (`Jobs.JobsFrom`, one `Jobs.JobStep` per key) writes one Dockerfile per matching entry, in key order, at `<project>/<idx>-<stage>.<key>.Dockerfile`, holding the compiled lines. |
| Jobs.JobsService | index.js:165 | Every matching entry has a service named by its key (`Jobs.JobService`) that builds its own Dockerfile with its build arguments. |
| Jobs.JobsUntouched | index.js:162-165 | A key the walk does not visit keeps its service. |
| Jobs.JobsOnlyMatching | index.js:163-165 | A key whose entry's `stage` is not the chosen one keeps the service it had before the walk, whether the walk visits it or not. |
| Jobs.JobsKeepServiceOrder | index.js:159-165 | Services defined before the walk keep their places in the compose file. |
| Jobs.JobsNullEntry | index.js:163 | A top-level entry whose value is `null` makes the walk throw. |
| Jobs.WalkFirstService | index.js:159-165 | Starting from the base service, the base service stays first. |
| Jobs.WalkFilesStart | index.js:167 | If every compiled job starts with the header, so does every written Dockerfile. |
| Jobs.WalkServiceOf | index.js:162-165 | Over the whole document, the `j`-th entry, when it matches, gets the service for `<j>-<stage>.<key>`. |
| IndexCompile.BaseImage | index.js:150 | The base image name exists iff `image` is a string (`split` throws otherwise). |
| IndexCompile.BaseImageUntagged | index.js:150 | The base service is `base-` followed by the image up to its first `:`. |
| IndexCompile.ClassifyList | index.js:171-183 | The `map` over one list pushes exactly the list's build lines, writes its arguments after the earlier ones, and collects its commands; a failing line throws. |
| IndexCompile.CompileJob | index.js:167-199 | The per-job code returns exactly the job's Dockerfile lines and build arguments that `IndexCompile.JobSpec` defines, or the same exception. |
| IndexCompile.CreateJobs | index.js:162-207 | The key loop, with its empty-args service later filled in, returns exactly the plan of the walk. |
| IndexCompile.Create | index.js:134-216 | The create step returns exactly the artifacts `IndexCompile.CreateSpec` defines: the base Dockerfile (`Jobs.BaseFile`), the job Dockerfiles, the compose file (`Jobs.Compose`) and `pipeline.sh` (`IndexCompile.Launcher`). |
| IndexCompile.Run | index.js:121-216 | The whole run, include resolution first, returns exactly what `IndexCompile.Compile` defines. |
| IndexCompile.JobSpecOk | index.js:171-197 | A job compiles iff `before_script` and `script` are arrays whose every line is accepted; a missing list, a non-string or an assignment without `=` throws. |
| IndexCompile.JobSpecLayout | index.js:167-199 | A Dockerfile is the header, then the `ARG`/`ENV` lines of `before_script` followed by those of `script`, then exactly two `RUN` lines: `RUN ` and the ` && `-join of the `CommandTexts` of `before_script`, then the same for `script`. |
| IndexCompile.CommandsClassified | index.js:171-197 | The commands a classified list yields are exactly its `CommandTexts`: each string item as interpolated (a `set ` line verbatim), unless it then starts with `export ` or `set `, in order. |
| IndexCompile.JobFnHeader | index.js:167 | Every compiled Dockerfile starts with the header (`Jobs.Header`). |
| IndexCompile.NoIncludeNoArtifacts | index.js:122 | Without a truthy `include` the later compiler writes nothing. |
| IndexCompile.CreateNothingIffNoStage | index.js:135 | A run writes nothing exactly when no stage is selected. |
| IndexCompile.CompileNamedStage | index.js:126-135 | With a stage name, a run writes nothing iff the name is missing from the root, local and template stages. |
| IndexCompile.CreateJobFiles | index.js:162-205 | The job Dockerfiles are those of the matching entries, in key order, named by position and key. |
| IndexCompile.CreateBaseFirst | index.js:159-167 | The base service comes first in the compose file, and every job Dockerfile starts `FROM <project without dots>_<base service>`. |
| IndexCompile.CreateJobServices | index.js:162-165 | Each matching entry has a service with its Dockerfile path, its build arguments and the `shared:/source` mount. |
| IndexCompile.CreateOnlyMatching | index.js:159-165 | No key other than the base image and the entries of the selected stage has a compose service. |
| PipelineCompile.ClassifyScript | pipeline.js:107-119 | The `map` pushes exactly the `ENV` lines, writes the build arguments and collects `RUN` lines; a failing line throws. |
| PipelineCompile.CompileJob | pipeline.js:105-120 | The per-job code returns exactly what `PipelineCompile.JobSpec` defines: the header, the `ENV` lines and one newline-joined `RUN` block, with the build arguments. |
| PipelineCompile.CreateJobs | pipeline.js:100-128 | The key loop returns exactly the plan of the walk. |
| PipelineCompile.Create | pipeline.js:64-137 | The run returns exactly the artifacts `PipelineCompile.CreateSpec` defines, with the project volume and `pipeline.bash` (`PipelineCompile.Launcher`). |
| PipelineCompile.JobSpecOk | pipeline.js:107-115 | A job compiles iff `script` is an array of strings whose interpolated `export ` lines all contain `=`; a non-string item makes `PipelineCompile.ExportItem` throw. |
| PipelineCompile.JobSpecLayout | pipeline.js:105-120 | A Dockerfile is the header, then only `ENV` lines, then one last element, present even when empty: `RUN <line>` for every interpolated line that is not an `export ` line, in order, joined by newlines. |
| PipelineCompile.CommandsPlain | pipeline.js:109-118 | The commands of a classified script are exactly its interpolated lines that do not start with `export `, in order. |
| PipelineCompile.JobFnHeader | pipeline.js:105 | Every compiled Dockerfile starts with the header. |
| PipelineCompile.CreateNothingIffNoStage | pipeline.js:73 | A run writes nothing exactly when no stage is selected; `image` cannot make it throw. |
| PipelineCompile.CreateJobFiles | pipeline.js:100-126 | The job Dockerfiles are those of the matching entries, in key order, named by position and key. |
| PipelineCompile.CreateBaseFirst | pipeline.js:88-105 | The base service `base-<project without dots>` (`PipelineCompile.BaseImage`) comes first, and every job Dockerfile starts `FROM <project without dots>_<base service>`. |
| PipelineCompile.CreateJobServices | pipeline.js:101-103 | Each matching entry has a service with its Dockerfile path, its build arguments and the `<project>:/source` mount (`PipelineCompile.Mount`). |
| PipelineCompile.CreateOnlyMatching | pipeline.js:87-103 | No key other than the base image and the entries of the selected stage has a compose service. |
| Yaml.SpreadGet | index.js:64 | `{...a, ...b}` is last-write-wins per key; `b` replaces whole values. |
| Yaml.SpreadKeysPrefix | index.js:64 | A spread keeps `a`'s keys in place and in order. |
| Yaml.SpreadKeysUnion | index.js:64 | The keys of a spread are exactly the keys of both objects. |
| Yaml.PutTwice | index.js:165-177 | Assigning a key twice gives the same object as assigning only the second value. |
| Yaml.PutKeys | index.js:165 | Assigning an existing key keeps the key order; a new key is appended at the end. |
| Yaml.Prop | index.js:163 | Reading a property of `null` or `undefined` throws. |
| Yaml.AsList | index.js:171 | `.map` exists only on arrays. |
| Yaml.Iterate | index.js:56 | `[...x]` works only on arrays and strings. |
| Text.IndexOf | index.js:175 | `indexOf` finds the first occurrence, or -1 when there is none. |
| Text.ReplaceFirstAfter | index.js:175 | `replace` with a string pattern replaces the first occurrence: text in front in which the pattern does not start only moves it along. |
| Text.Split | index.js:176 | `split('=')` gives at least two segments iff there is an `=`; no segment holds an `=`, and joining them back gives the text. |
| Text.Trim | index.js:177 | `trim` yields the text between its leading and trailing white space: it neither starts nor ends with white space, and everything cut off is white space. |
| Text.RemoveChar | index.js:167 | `replace(/\./g, '')` leaves no dot, and every other character as many times as before. |
| Text.RemoveCharAppend | index.js:167 | Removing the dots works piece by piece and one character at a time, so what stays keeps its order. |
| Text.NatToString | index.js:164 | An index in a template literal renders as decimal digits that read back as the index, with no leading zero. |

## Left out

- File I/O: `existsSync`, `mkdirSync`, `readFileSync` and `writeFileSync` are not modelled. The artifacts are returned instead of written. A run that throws after some files were written leaves those files behind; the model returns only the exception.
- The CLI is not modelled: yargs parsing, help text, the banner, colours, the `LIST` command and console output. The stage argument is `cli`, and `readlineSync.keyInSelect` is the input index `choice`.
- Strings are sequences of Dafny characters. JavaScript indexes a string by UTF-16 code units but spreads it by code points, so `stages[index]` on a string stage and `[...stages]` differ on characters outside the Basic Multilingual Plane; the model treats both as one character per element.
- `.env` loading and `process.env` are not modelled. Variable interpolation (`simplify.getContentArgs`) is the parameter `interp`, given the line and the document's `variables`; its scope layering is not modelled.
- PipelineCompile.Interpolate: `getContentArgs` on the whole `script` array is modelled item by item.
- The YAML parser and `YAML.stringify` are not modelled. The compose file is the abstract value the script would stringify.
- The value model has these limits:
  - every scalar is a string;
  - objects keep insertion order, and JavaScript's ordering of integer-like keys is not modelled;
  - the root document, local fragments and fetched templates are objects;
  - `===` on objects is structural, not by reference.
- `path.resolve` normalisation is not modelled: a `local` path is looked up verbatim in the map of existing files.
- The network is not modelled. `fetch` is the function `fetch` from URL to parsed body, or to a failure. `Promise.all` concurrency is reduced to URL order, which is the order its results are used in.
- `arrayBuffer2String` (index.js:73-81) is never called, and is not modelled.
- The cache push `dockerCacheVolumes.push()` (index.js:156) does nothing, and is not modelled. The same holds for `stageExecutionChains`, which nothing reads.
- `const.js` is help text only, and is not modelled.
- Includes.ResolvedFields: requires every fragment to have distinct keys, as any parsed YAML mapping has.
- Jobs.JobsService, Jobs.WalkServiceOf, IndexCompile.CreateJobServices and PipelineCompile.CreateJobServices: these require distinct top-level keys, as any parsed YAML mapping has.

## Findings

| source | as written | input that shows it | evidently intended | confidence | as-written member | corrected member |
|---|---|---|---|---|---|---|
| index.js:175 | `replace('export ', '').replace('set ', '')` removes the first `set ` anywhere in the line, after removing `export `. | `export offset = 1` becomes `off= 1` and declares `off` | remove only the leading `export ` or `set `, so the line declares `offset` | high (not executed) | Scripts.StripAsWrittenCuts | Scripts.CorrectedDeclares |

The compiler models use the removal as written: `Scripts.Classify`, and through it `IndexCompile`, declare `off` for `export offset = 1`. `Scripts.ClassifyCorrected` is the classifier with the removal meant, and `Scripts.CorrectedDeclares` proves it declares exactly the rest of the line. The earlier compiler, `PipelineCompile`, removes only `export ` with `Scripts.ClassifyExport` and is not affected.
