/**
 * The script-line classifiers. The later compiler (index.js:171-197) turns a
 * `set NAME=value` line into a build argument `ARG` and, after interpolation, an
 * `export NAME=value` line into an `ENV`; every other line is a command. The
 * earlier compiler (pipeline.js:107-118) knows only `export`.
 *
 * Variable interpolation (`simplify.getContentArgs` from simplify-sdk) is not part
 * of this model: it is the parameter `interp`, given the line and the document's
 * `variables` entry.
 */
module Scripts {
  import opened Wrappers
  import opened Text
  import opened Yaml

  type Interp = (string, Option<Value>) -> string

  datatype Kind = Arg | Env

  /** What one script line contributes: a build instruction with its key and value, or a shell command. */
  datatype Directive = Build(kind: Kind, key: string, value: string) | Command(text: string)

  function KindName(kind: Kind): string {
    match kind
    case Arg => "ARG"
    case Env => "ENV"
  }

  /** The Dockerfile line of a build instruction: `ARG|ENV key="value"`. */
  function BuildLine(kind: Kind, key: string, value: string): (line: string)
    ensures StartsWith(line, KindName(kind) + " ")
  {
    KindName(kind) + " " + key + "=\"" + value + "\""
  }

  /** The text between the first `=` of `s` and the next one (or the end). */
  function SecondSegment(s: string): string
    requires '=' in s
  {
    var tail := s[CharIndex(s, '=') + 1..];
    if '=' in tail then tail[..CharIndex(tail, '=')] else tail
  }

  /**
   * `const kv = s.split('=')`, then `kv[0].trim()` and `kv[1].trim()`: the key is the
   * trimmed text before the first `=`, the value the trimmed text up to the second;
   * without any `=` reading `kv[1].trim()` throws.
   */
  function SplitAssignment(s: string): (r: Result<(string, string)>)
    ensures r.Err? <==> '=' !in s
    ensures r.Err? ==> r.error == MissingValue(s)
    ensures r.Ok? ==> r.value == (Trim(s[..CharIndex(s, '=')]), Trim(SecondSegment(s)))
  {
    var parts := Split(s, '=');
    if |parts| < 2 then Err(MissingValue(s))
    else
      SplitHead(s, '=');
      Ok((Trim(parts[0]), Trim(parts[1])))
  }

  /** Segments after the second `=` are dropped: `A=b=c` assigns `b` to `A`. */
  lemma ExtraSegmentsDropped(s: string, t: string)
    requires '=' in s
    ensures SplitAssignment(s + "=" + t) == SplitAssignment(s)
  {
    var u := s + "=" + t;
    CharIndexAppend(s, "=" + t, '=');
    assert u == s + ("=" + t);
    var i := CharIndex(s, '=');
    assert u[..i] == s[..i];
    SecondSegmentAppend(s, t);
  }

  lemma SecondSegmentAppend(s: string, t: string)
    requires '=' in s
    ensures '=' in s + "=" + t && SecondSegment(s + "=" + t) == SecondSegment(s)
  {
    var i, u := CharIndex(s, '='), s + "=" + t;
    var tail := s[i + 1..];
    Seqs.AppendAssoc(s, "=", t);
    CharIndexAppend(s, "=" + t, '=');
    assert '=' in u && CharIndex(u, '=') == i;
    DropAppend(s, "=" + t, i + 1);
    Seqs.AppendAssoc(tail, "=", t);
    assert u[i + 1..] == tail + "=" + t;
    FirstSegmentAppend(tail, t);
  }

  /** The text before the first `=` of `tail + "=" + t` lies in `tail`. */
  lemma FirstSegmentAppend(tail: string, t: string)
    ensures var v := tail + "=" + t;
            '=' in v && v[..CharIndex(v, '=')] == if '=' in tail then tail[..CharIndex(tail, '=')] else tail
  {
    var v := tail + "=" + t;
    assert v[|tail|] == '=';
    if '=' in tail {
      CharIndexAppend(tail, "=" + t, '=');
      assert v == tail + ("=" + t);
      assert v[..CharIndex(tail, '=')] == tail[..CharIndex(tail, '=')];
    } else {
      CharIndexAfter(tail, t, '=');
      assert v[..|tail|] == tail;
    }
  }

  /** The prefix removal as index.js:175 writes it: the first `export ` anywhere, then the first `set ` anywhere. */
  function StripAsWritten(s: string): string {
    ReplaceFirst(ReplaceFirst(s, "export ", ""), "set ", "")
  }

  /** The removal of the leading `export ` or `set ` that the classifier relies on. */
  function StripPrefix(s: string): string {
    if StartsWith(s, "export ") then s[|"export "|..]
    else if StartsWith(s, "set ") then s[|"set "|..]
    else s
  }

  /** The corrected removal keeps everything after the prefix, whatever it contains. */
  lemma StripPrefixKeepsRest(rest: string)
    ensures StripPrefix("export " + rest) == rest
    ensures StripPrefix("set " + rest) == rest
  {
    assert ("export " + rest)[|"export "|..] == rest;
    assert StartsWith("set " + rest, "set ");
    StartsWithOne("set " + rest, "set ", "export ");
    assert ("set " + rest)[|"set "|..] == rest;
  }

  /** In `offset = 1` the first `set ` is the one inside the name. */
  lemma SetInsideName()
    ensures IndexOf("offset = 1", "set ") == 3
  {
    var r := "offset = 1";
    assert r[..4][0] != "set "[0];
    assert r[1..][..4][0] != "set "[0];
    assert r[2..][..4][0] != "set "[0];
    assert r[3..][..4] == "set ";
    assert IndexOf(r[3..], "set ") == 0;
    assert r[1..][1..] == r[2..] && r[2..][1..] == r[3..];
  }

  /** The key of an assignment is the trimmed text before its first `=`. */
  lemma AssignmentKey(s: string, i: nat)
    requires i < |s| && s[i] == '=' && '=' !in s[..i]
    ensures var r := SplitAssignment(s); r.Ok? && r.value.0 == Trim(s[..i])
  {
    CharIndexAt(s, '=', i);
    var r := SplitAssignment(s);
    assert r.Ok? && r.value == (Trim(s[..CharIndex(s, '=')]), Trim(SecondSegment(s)));
  }

  /** The key the as-written removal leaves for `export offset = 1`. */
  lemma OffKey()
    ensures var r := SplitAssignment("off= 1"); r.Ok? && r.value.0 == "off"
  {
    var a := "off= 1";
    assert a[..3] == "off";
    AssignmentKey(a, 3);
    TrimOff();
  }

  lemma TrimOff()
    ensures Trim("off") == "off"
  {
    assert LeadingSpace("off") == 0;
    assert TrailingSpace("off") == 0;
  }

  /** The key the corrected removal leaves for `export offset = 1`. */
  lemma OffsetKey()
    ensures var r := SplitAssignment("offset = 1"); r.Ok? && r.value.0 == "offset"
  {
    var b := "offset = 1";
    assert b[..7] == "offset ";
    AssignmentKey(b, 7);
    TrimOffset();
  }

  lemma TrimOffset()
    ensures Trim("offset ") == "offset"
  {
    assert LeadingSpace("offset ") == 0;
    assert TrailingSpace("offset") == 0;
    assert "offset "[..6] == "offset";
    assert TrailingSpace("offset ") == 1;
  }

  /**
   * As written, an `export` line whose name contains `set ` loses part of its name:
   * `export offset = 1` declares `off`, where the earlier compiler and the corrected
   * removal declare `offset`.
   */
  lemma StripAsWrittenCuts()
    ensures var r := Classify("export offset = 1"); r.Ok? && r.value.Build? && r.value.key == "off"
    ensures var r := ClassifyExport("export offset = 1"); r.Ok? && r.value.Build? && r.value.key == "offset"
    ensures var r := ClassifyCorrected("export offset = 1"); r.Ok? && r.value.Build? && r.value.key == "offset"
  {
    ExportOffsetPrefix();
    AsWrittenText();
    OffKey();
    StripOffset();
    DropExport();
    OffsetKey();
  }

  lemma ExportOffsetPrefix()
    ensures StartsWith("export offset = 1", "export ") && !StartsWith("export offset = 1", "set ")
  {
    var s := "export offset = 1";
    assert s[..7] == "export ";
    StartsWithOne(s, "export ", "set ");
  }

  lemma StripOffset()
    ensures StripPrefix("export offset = 1") == "offset = 1"
  {
    assert "export offset = 1" == "export " + "offset = 1";
    StripPrefixKeepsRest("offset = 1");
  }

  /** The text the as-written removal leaves of `export offset = 1`. */
  lemma AsWrittenText()
    ensures StripAsWritten("export offset = 1") == "off= 1"
  {
    DropExport();
    DropSet();
  }

  lemma DropExport()
    ensures ReplaceFirst("export offset = 1", "export ", "") == "offset = 1"
  {
    var s := "export offset = 1";
    assert s[..7] == "export ";
    ReplaceFirstAtStart(s, "export ");
    assert s[7..] == "offset = 1";
  }

  lemma DropSet()
    ensures ReplaceFirst("offset = 1", "set ", "") == "off= 1"
  {
    var r := "offset = 1";
    SetInsideName();
    assert r[..3] + "" + r[3 + 4..] == "off= 1";
  }

  /** A line as the later compiler classifies it: a `set ` line verbatim, any other line interpolated. */
  function Interpolated(line: string, interp: Interp, vars: Option<Value>): string {
    if StartsWith(line, "set ") then line else interp(line, vars)
  }

  /**
   * A line that starts with `export ` or `set ` declares the assignment left once
   * its prefix is removed, giving `stripped`: an `ARG` for `set `, an `ENV` for
   * `export `; any other line is a command.
   */
  function Classified(content: string, stripped: string): Result<Directive> {
    if StartsWith(content, "export ") || StartsWith(content, "set ") then
      var kind := if StartsWith(content, "set ") then Arg else Env;
      var kv :- SplitAssignment(stripped);
      Ok(Build(kind, kv.0, kv.1))
    else
      Ok(Command(content))
  }

  /** The later compiler's classification of an (already interpolated) line, with the prefix removal as index.js:175 writes it. */
  function Classify(content: string): Result<Directive> {
    Classified(content, StripAsWritten(content))
  }

  /** The classification the prefix removal was meant to give: only the leading `export ` or `set ` goes. */
  function ClassifyCorrected(content: string): Result<Directive> {
    Classified(content, StripPrefix(content))
  }

  /** One `before_script` or `script` item: `startsWith` throws unless it is a string. */
  function ClassifyLine(item: Value, interp: Interp, vars: Option<Value>): Result<Directive> {
    if item.Scalar? then Classify(Interpolated(item.text, interp, vars))
    else Err(NotAString("script"))
  }

  /** The assignment a build line declares, independent of how the line was split. */
  function Declared(kind: Kind, rest: string): Result<Directive> {
    if '=' in rest then Ok(Build(kind, Trim(rest[..CharIndex(rest, '=')]), Trim(SecondSegment(rest))))
    else Err(MissingValue(rest))
  }

  /**
   * A `set ` line is never interpolated and declares an `ARG`, or throws when it has
   * no `=`; as written, the first `export ` in the rest of the line is cut out first.
   */
  lemma SetLine(rest: string, interp: Interp, vars: Option<Value>)
    ensures ClassifyLine(Scalar("set " + rest), interp, vars) == Declared(Arg, ReplaceFirst(rest, "export ", ""))
  {
    var line := "set " + rest;
    assert StartsWith(line, "set ");
    NoExportInSet(rest);
    ReplaceFirstAfter("set ", rest, "export ");
    var cut := ReplaceFirst(rest, "export ", "");
    assert StartsWith("set " + cut, "set ");
    ReplaceFirstAtStart("set " + cut, "set ");
    assert ("set " + cut)[|"set "|..] == cut;
  }

  /** No `export ` starts inside the `set ` prefix. */
  lemma NoExportInSet(rest: string)
    ensures forall k :: 0 <= k < |"set "| ==> !OccursAt("set " + rest, "export ", k)
  {
    var u := "set " + rest;
    forall k | 0 <= k < |"set "|
      ensures !OccursAt(u, "export ", k)
    {
      if k + |"export "| <= |u| {
        var w := u[k..k + |"export "|];
        assert w[0] == u[k] && w[1] == u[k + 1];
        assert u[0] == 's' && u[1] == 'e' && u[2] == 't' && u[3] == ' ';
        assert w[0] != 'e' || w[1] != 'x';
      }
    }
  }

  /**
   * A line that does not start with `set ` but interpolates to `export ...` declares
   * an `ENV`; as written, the first `set ` in the rest of the line is cut out first.
   */
  lemma ExportLine(line: string, rest: string, interp: Interp, vars: Option<Value>)
    requires !StartsWith(line, "set ")
    requires interp(line, vars) == "export " + rest
    ensures ClassifyLine(Scalar(line), interp, vars) == Declared(Env, ReplaceFirst(rest, "set ", ""))
  {
    var content := "export " + rest;
    assert StartsWith(content, "export ");
    StartsWithOne(content, "export ", "set ");
    ReplaceFirstAtStart(content, "export ");
    assert content[|"export "|..] == rest;
  }

  /** Every other line is a command, as interpolated. */
  lemma CommandLine(line: string, interp: Interp, vars: Option<Value>)
    requires !StartsWith(line, "set ")
    requires !StartsWith(interp(line, vars), "export ") && !StartsWith(interp(line, vars), "set ")
    ensures ClassifyLine(Scalar(line), interp, vars) == Ok(Command(interp(line, vars)))
  {
  }

  /** The earlier compiler's classification (pipeline.js:109-118): only `export ` lines are build lines. */
  function ClassifyExport(line: string): Result<Directive> {
    if StartsWith(line, "export ") then
      var kv :- SplitAssignment(ReplaceFirst(line, "export ", ""));
      Ok(Build(Env, kv.0, kv.1))
    else
      Ok(Command(line))
  }

  /** The earlier compiler declares an `ENV` for exactly the `export ` lines, and keeps `set ` lines as commands. */
  lemma ClassifyExportCases(line: string)
    ensures StartsWith(line, "export ") ==> ClassifyExport(line) == Declared(Env, line[|"export "|..])
    ensures !StartsWith(line, "export ") ==> ClassifyExport(line) == Ok(Command(line))
  {
    if StartsWith(line, "export ") {
      ReplaceFirstAtStart(line, "export ");
    }
  }

  /** On every line without a `set ` anywhere in it, the two compilers classify alike. */
  lemma ClassifiersAgree(content: string)
    requires IndexOf(content, "set ") < 0
    ensures Classify(content) == ClassifyExport(content)
  {
    assert !OccursAt(content, "set ", 0);
    assert !StartsWith(content, "set ");
    if StartsWith(content, "export ") {
      ReplaceFirstAtStart(content, "export ");
      IndexOfDrop(content, "set ", |"export "|);
    }
  }

  /** With the corrected removal, the assignment is the whole rest of the line, whatever it contains. */
  lemma CorrectedDeclares(rest: string)
    ensures ClassifyCorrected("set " + rest) == Declared(Arg, rest)
    ensures ClassifyCorrected("export " + rest) == Declared(Env, rest)
  {
    StripPrefixKeepsRest(rest);
    assert StartsWith("set " + rest, "set ");
    assert StartsWith("export " + rest, "export ");
    StartsWithOne("export " + rest, "export ", "set ");
  }

  /** With the corrected removal, the two compilers agree on every line that does not start with `set `. */
  lemma CorrectedAgrees(content: string)
    requires !StartsWith(content, "set ")
    ensures ClassifyCorrected(content) == ClassifyExport(content)
  {
    if StartsWith(content, "export ") {
      ReplaceFirstAtStart(content, "export ");
    }
  }

  // ---------------------------------------------------------------------------
  // What a job's classified lines turn into.

  /** The `ARG`/`ENV` lines of the build directives, in order. */
  function BuildLines(ds: seq<Directive>): (lines: seq<string>)
    ensures forall i :: 0 <= i < |lines| ==> StartsWith(lines[i], "ARG ") || StartsWith(lines[i], "ENV ")
  {
    if |ds| == 0 then []
    else
      var d := ds[|ds| - 1];
      BuildLines(ds[..|ds| - 1]) + if d.Build? then [BuildLine(d.kind, d.key, d.value)] else []
  }

  /** The command texts, in order. */
  function CommandsOf(ds: seq<Directive>): seq<string> {
    if |ds| == 0 then []
    else
      var d := ds[|ds| - 1];
      CommandsOf(ds[..|ds| - 1]) + if d.Command? then [d.text] else []
  }

  /** The compose build arguments: `args[key] = value` for each build directive in turn. */
  function ArgsOf(ds: seq<Directive>): Obj {
    if |ds| == 0 then []
    else
      var d := ds[|ds| - 1];
      var args := ArgsOf(ds[..|ds| - 1]);
      if d.Build? then Put(args, d.key, Scalar(d.value)) else args
  }

  /** `ds` has a build directive for `key` at `i`. */
  predicate Declares(ds: seq<Directive>, i: int, key: string) {
    0 <= i < |ds| && ds[i].Build? && ds[i].key == key
  }

  /** A repeated key keeps the value of its last declaration. */
  lemma {:induction false} ArgsLastWins(ds: seq<Directive>, i: nat)
    requires i < |ds| && ds[i].Build?
    requires forall j :: i < j < |ds| ==> !Declares(ds, j, ds[i].key)
    ensures Get(ArgsOf(ds), ds[i].key) == Some(Scalar(ds[i].value))
    decreases |ds|
  {
    var n := |ds| - 1;
    var init, d, key := ds[..n], ds[n], ds[i].key;
    assert ds == init + [d];
    DirectivesAppend(init, d);
    if i < n {
      assert !Declares(ds, n, key);
      assert init[i] == ds[i];
      forall j | i < j < |init| ensures !Declares(init, j, key) {
        assert init[j] == ds[j];
        assert !Declares(ds, j, key);
      }
      ArgsLastWins(init, i);
    }
  }

  /** A key no line declares is not a build argument. */
  lemma {:induction false} ArgsUndeclared(ds: seq<Directive>, key: string)
    requires forall j :: 0 <= j < |ds| ==> !Declares(ds, j, key)
    ensures Get(ArgsOf(ds), key).None?
    decreases |ds|
  {
    if |ds| > 0 {
      var n := |ds| - 1;
      assert !Declares(ds, n, key);
      forall j | 0 <= j < n ensures !Declares(ds[..n], j, key) {
        assert !Declares(ds, j, key);
      }
      ArgsUndeclared(ds[..n], key);
    }
  }

  /** Appending directives appends their lines, commands and argument writes. */
  lemma {:induction false} DirectivesAppend(ds: seq<Directive>, d: Directive)
    ensures BuildLines(ds + [d]) == BuildLines(ds) + if d.Build? then [BuildLine(d.kind, d.key, d.value)] else []
    ensures CommandsOf(ds + [d]) == CommandsOf(ds) + if d.Command? then [d.text] else []
    ensures ArgsOf(ds + [d]) == if d.Build? then Put(ArgsOf(ds), d.key, Scalar(d.value)) else ArgsOf(ds)
  {
    assert (ds + [d])[..|ds|] == ds;
  }

  /** `BuildLines` of a concatenation is the concatenation of the lines. */
  lemma {:induction false} BuildLinesAppend(a: seq<Directive>, b: seq<Directive>)
    ensures BuildLines(a + b) == BuildLines(a) + BuildLines(b)
    decreases |b|
  {
    if |b| == 0 {
      assert a + b == a;
    } else {
      var n, d := |b| - 1, b[|b| - 1];
      var last := if d.Build? then [BuildLine(d.kind, d.key, d.value)] else [];
      BuildLinesAppend(a, b[..n]);
      assert (a + b)[..|a + b| - 1] == a + b[..n] && (a + b)[|a + b| - 1] == d;
      assert BuildLines(a + b) == BuildLines(a + b[..n]) + last;
      assert BuildLines(b) == BuildLines(b[..n]) + last;
      Seqs.AppendAssoc(BuildLines(a), BuildLines(b[..n]), last);
    }
  }

  // ---------------------------------------------------------------------------
  // Classifying a whole script list.

  type LineClassifier = Value -> Result<Directive>

  /** The items of one script list classified in order after `done`; the first failing item stops it. */
  function ClassifyFrom(items: seq<Value>, classify: LineClassifier, done: seq<Directive>): Result<seq<Directive>>
    decreases |items|
  {
    if |items| == 0 then Ok(done)
    else
      var d :- classify(items[0]);
      ClassifyFrom(items[1..], classify, done + [d])
  }

  /** Every line is classified on its own: the list succeeds iff each line does, and yields their directives in order. */
  lemma {:induction false} ClassifyFromFacts(items: seq<Value>, classify: LineClassifier, done: seq<Directive>)
    ensures ClassifyFrom(items, classify, done).Ok? <==> forall k :: 0 <= k < |items| ==> classify(items[k]).Ok?
    ensures ClassifyFrom(items, classify, done).Ok? ==>
              var r := ClassifyFrom(items, classify, done).value;
              && |r| == |done| + |items| && r[..|done|] == done
              && forall k :: 0 <= k < |items| ==> classify(items[k]) == Ok(r[|done| + k])
    decreases |items|
  {
    if |items| > 0 {
      var first := classify(items[0]);
      assert forall k :: 0 < k < |items| ==> items[k] == items[1..][k - 1];
      if first.Ok? {
        var done' := done + [first.value];
        ClassifyFromFacts(items[1..], classify, done');
        if ClassifyFrom(items, classify, done).Ok? {
          var r := ClassifyFrom(items, classify, done).value;
          assert r[..|done'|][..|done|] == r[..|done|];
        }
      }
    }
  }

  /** One step of `ClassifyFrom`: the item at `i` either stops the list with its error or extends `done`. */
  lemma ClassifyFromStep(items: seq<Value>, i: nat, classify: LineClassifier, done: seq<Directive>)
    requires i < |items|
    ensures classify(items[i]).Err? ==> ClassifyFrom(items[i..], classify, done) == Err(classify(items[i]).error)
    ensures classify(items[i]).Ok? ==>
              ClassifyFrom(items[i..], classify, done) == ClassifyFrom(items[i + 1..], classify, done + [classify(items[i]).value])
  {
    assert items[i..][0] == items[i];
    assert items[i..][1..] == items[i + 1..];
  }

  /** The three outputs of a directive list after `before`, extended by one directive. */
  lemma OutputsStep(before: seq<Directive>, done: seq<Directive>, d: Directive, lines0: seq<string>)
    ensures lines0 + BuildLines(done + [d]) == lines0 + BuildLines(done) + (if d.Build? then [BuildLine(d.kind, d.key, d.value)] else [])
    ensures CommandsOf(done + [d]) == CommandsOf(done) + (if d.Command? then [d.text] else [])
    ensures ArgsOf(before + (done + [d])) == if d.Build? then Put(ArgsOf(before + done), d.key, Scalar(d.value)) else ArgsOf(before + done)
  {
    DirectivesAppend(done, d);
    DirectivesAppend(before + done, d);
    Seqs.AppendAssoc(before, done, [d]);
    Seqs.AppendAssoc(lines0, BuildLines(done), if d.Build? then [BuildLine(d.kind, d.key, d.value)] else []);
  }

  /** A directive list that declares only `ENV`s renders only `ENV` lines. */
  lemma {:induction false} EnvLines(ds: seq<Directive>)
    requires forall k :: 0 <= k < |ds| && ds[k].Build? ==> ds[k].kind == Env
    ensures forall i :: 0 <= i < |BuildLines(ds)| ==> StartsWith(BuildLines(ds)[i], "ENV ")
    decreases |ds|
  {
    if |ds| > 0 {
      EnvLines(ds[..|ds| - 1]);
    }
  }
}
