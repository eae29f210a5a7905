/** The deployer's reading of the Serverless CLI's standard output
    (lib/deployer.js, the `deploy` step).

    The CLI's output arrives in chunks. Each chunk is trimmed, skipped when
    one of its lines is made only of dots (the progress indicator), and
    otherwise read by a three-flag state machine: before the
    "Service Information" banner a chunk mentioning "Error" records a
    failure; the banner chunk itself records the deployment's metadata;
    after it, an "endpoints" chunk adds HTTP endpoints and a "functions"
    chunk adds the deployed functions. When the process closes, the
    recorded result settles the deployment. */
module Deployer {
  import opened Wrappers
  import opened Strings

  /** An HTTP endpoint reported by the CLI: `{type: 'http', path, method, url}`. */
  datatype EndpointEvent = EndpointEvent(path: string, httpMethod: string, url: string)

  /** A deployed function: `{id, name}`. */
  datatype ComputeInfo = ComputeInfo(id: string, name: string)

  /** `{success: true, meta, events, compute, ...}` or
      `{success: false, message}`. */
  datatype DeployResult =
    | Deployed(meta: map<string, string>, events: seq<EndpointEvent>, compute: seq<ComputeInfo>)
    | DeployFailed(message: string)

  /** The handler's closure state: `finished`, `failure` and `result`. */
  datatype ParserState = ParserState(finished: bool, failure: bool, result: Option<DeployResult>)

  /** How the deployment promise settles. */
  datatype Settlement = Resolved(result: DeployResult) | Rejected

  const Initial := ParserState(false, false, None)

  /** The state the handler keeps: a finished deployment has a successful
      result, and a failed result is only recorded after a failure. */
  predicate Consistent(s: ParserState) {
    && (s.finished ==> s.result.Some? && s.result.value.Deployed?)
    && (s.result.Some? && s.result.value.DeployFailed? ==> s.failure)
  }

  predicate DotsOnly(line: string) {
    forall c :: c in line ==> c == '.'
  }

  /** `/^\.*$/m.test(data)`: some line of the chunk is empty or all dots. */
  predicate HasDotsLine(lines: seq<string>) {
    exists i :: 0 <= i < |lines| && DotsOnly(lines[i])
  }

  // ---------------------------------------------------------------------
  // The endpoint line `^  (.*) - (.*\/<stage>(.*))$`

  /** The " - " at `p` of the line's body is followed by `marker`
      somewhere after it. */
  predicate SplitsAt(body: string, marker: string, p: int) {
    OccursAt(body, " - ", p) && Contains(body[p + 3..], marker)
  }

  /** The last separator at or before `upTo` that `SplitsAt` accepts: the
      one the greedy first group of the endpoint pattern settles on. */
  function LastSplit(body: string, marker: string, upTo: int): (r: Option<nat>)
    ensures r.Some? ==> r.value <= upTo && SplitsAt(body, marker, r.value)
    ensures r.Some? ==> forall j :: r.value < j <= upTo ==> !SplitsAt(body, marker, j)
    ensures r.None? ==> forall j :: 0 <= j <= upTo ==> !SplitsAt(body, marker, j)
    decreases upTo + 1
  {
    if upTo < 0 then None
    else if SplitsAt(body, marker, upTo) then Some(upTo)
    else LastSplit(body, marker, upTo - 1)
  }

  /** One line against the endpoint pattern for `stage`. */
  function MatchEndpoint(line: string, stage: string): Option<EndpointEvent> {
    var marker := "/" + stage;
    if !StartsWith(line, "  ") then None
    else
      var body := line[2..];
      match LastSplit(body, marker, |body|)
      case None => None
      case Some(p) =>
        var url := body[p + 3..];
        match LastIndexOf(url, marker)
        case None => None
        case Some(q) => Some(EndpointEvent(url[q + |marker|..], ToLower(body[..p]), url))
  }

  /** A line matches the endpoint pattern when, after its two-space indent,
      some " - " is followed by "/<stage>". */
  lemma MatchEndpointWhen(line: string, stage: string)
    ensures MatchEndpoint(line, stage).Some? <==>
      StartsWith(line, "  ") && exists p :: SplitsAt(line[2..], "/" + stage, p)
  {
    var marker := "/" + stage;
    if StartsWith(line, "  ") {
      var body := line[2..];
      var split := LastSplit(body, marker, |body|);
      if split.Some? {
        var p := split.value;
        assert SplitsAt(body, marker, p);
        assert Contains(body[p + 3..], marker);
        LastMarkerPath(body[p + 3..], marker);
      }
    }
  }

  /** The method is the text up to the last " - " that "/<stage>" follows,
      lowered; the url is everything after that " - ". */
  lemma MatchEndpointSplit(line: string, stage: string)
    requires MatchEndpoint(line, stage).Some?
    ensures var e := MatchEndpoint(line, stage).value;
      exists p :: SplitsAt(line[2..], "/" + stage, p)
                  && line[2..][p + 3..] == e.url
                  && e.httpMethod == ToLower(line[2..][..p])
                  && forall j :: p < j <= |line| ==> !SplitsAt(line[2..], "/" + stage, j)
  {
    var marker := "/" + stage;
    var body := line[2..];
    var p := LastSplit(body, marker, |body|).value;
    assert SplitsAt(body, marker, p);
    assert forall j :: |body| < j <= |line| ==> !SplitsAt(body, marker, j);
  }

  /** The path is what follows the url's last "/<stage>". */
  lemma MatchEndpointPath(line: string, stage: string)
    requires MatchEndpoint(line, stage).Some?
    ensures var e := MatchEndpoint(line, stage).value;
      EndsWith(e.url, "/" + stage + e.path)
      && forall j :: |e.url| - |e.path| - |"/" + stage| < j <= |e.url| ==> !OccursAt(e.url, "/" + stage, j)
  {
    var marker := "/" + stage;
    var body := line[2..];
    var p := LastSplit(body, marker, |body|).value;
    var url := body[p + 3..];
    assert SplitsAt(body, marker, p);
    LastMarkerPath(url, marker);
  }

  /** The path group: what follows the url's last "/<stage>". */
  lemma LastMarkerPath(url: string, marker: string)
    requires Contains(url, marker)
    ensures LastIndexOf(url, marker).Some?
    ensures var q := LastIndexOf(url, marker).value;
      && EndsWith(url, marker + url[q + |marker|..])
      && forall j :: q < j <= |url| ==> !OccursAt(url, marker, j)
  {
    var q := LastIndexOf(url, marker).value;
    assert url[q..] == marker + url[q + |marker|..];
  }

  /** The events of all the chunk's endpoint lines, in order. */
  function EndpointEvents(lines: seq<string>, stage: string): seq<EndpointEvent> {
    if |lines| == 0 then []
    else
      var last := |lines| - 1;
      match MatchEndpoint(lines[last], stage)
      case Some(e) => EndpointEvents(lines[..last], stage) + [e]
      case None => EndpointEvents(lines[..last], stage)
  }

  /** The events of a chunk: one per endpoint line, in line order. */
  lemma EndpointEventsFromLines(lines: seq<string>, stage: string)
    ensures |EndpointEvents(lines, stage)| <= |lines|
    ensures forall e :: e in EndpointEvents(lines, stage) ==>
      exists i :: 0 <= i < |lines| && MatchEndpoint(lines[i], stage) == Some(e)
    ensures forall i :: 0 <= i < |lines| && MatchEndpoint(lines[i], stage).Some? ==>
      EndpointEvents(lines, stage) ==
        EndpointEvents(lines[..i], stage) + [MatchEndpoint(lines[i], stage).value] + EndpointEvents(lines[i + 1..], stage)
    ensures forall i :: 0 <= i < |lines| && MatchEndpoint(lines[i], stage).None? ==>
      EndpointEvents(lines, stage) == EndpointEvents(lines[..i], stage) + EndpointEvents(lines[i + 1..], stage)
  {
    EndpointEventsSources(lines, stage);
    forall i | 0 <= i < |lines| {
      EndpointEventsAt(lines, stage, i);
    }
  }

  /** Every recorded endpoint comes from a line of the chunk, at most one
      per line. */
  lemma {:induction false} EndpointEventsSources(lines: seq<string>, stage: string)
    ensures |EndpointEvents(lines, stage)| <= |lines|
    ensures forall e :: e in EndpointEvents(lines, stage) ==>
      exists i :: 0 <= i < |lines| && MatchEndpoint(lines[i], stage) == Some(e)
    decreases |lines|
  {
    if |lines| > 0 {
      var last := |lines| - 1;
      EndpointEventsSources(lines[..last], stage);
      assert forall i :: 0 <= i < last ==> lines[..last][i] == lines[i];
    }
  }

  /** The events of a chunk are those of the lines before any one line, then
      that line's event if it has one, then those of the lines after it. */
  lemma EndpointEventsAt(lines: seq<string>, stage: string, i: int)
    requires 0 <= i < |lines|
    ensures EndpointEvents(lines, stage) ==
      EndpointEvents(lines[..i], stage)
      + (if MatchEndpoint(lines[i], stage).Some? then [MatchEndpoint(lines[i], stage).value] else [])
      + EndpointEvents(lines[i + 1..], stage)
  {
    AroundLine(lines, i);
    EndpointEventsAround(lines[..i], lines[i], lines[i + 1..], stage);
  }

  /** The events of the lines around one line and of that line, in order. */
  lemma EndpointEventsAround(before: seq<string>, line: string, after: seq<string>, stage: string)
    ensures EndpointEvents((before + [line]) + after, stage) ==
      EndpointEvents(before, stage)
      + (if MatchEndpoint(line, stage).Some? then [MatchEndpoint(line, stage).value] else [])
      + EndpointEvents(after, stage)
  {
    EndpointEventsConcat(before + [line], after, stage);
    assert (before + [line])[..|before|] == before;
  }

  // ---------------------------------------------------------------------
  // The field lines `^(.*): (.*)$` and `^  (.*): (.*)$`

  /** A line split at its last ": ", as the greedy first group does. */
  function FieldSplit(line: string): Option<(string, string)> {
    match LastIndexOf(line, ": ")
    case None => None
    case Some(p) => Some((line[..p], line[p + 2..]))
  }

  /** A line is a field exactly when it holds a ": "; the key is the text
      before the LAST ": ", so the value holds none. */
  lemma FieldSplitMeaning(line: string)
    ensures FieldSplit(line).Some? <==> Contains(line, ": ")
    ensures FieldSplit(line).Some? ==>
      var kv := FieldSplit(line).value;
      line == kv.0 + ": " + kv.1 && !Contains(kv.1, ": ")
  {
    var last := LastIndexOf(line, ": ");
    if last.Some? {
      var p := last.value;
      var value := line[p + 2..];
      assert line == line[..p] + ": " + value;
      forall i | 0 <= i <= |value| ensures !OccursAt(value, ": ", i) {
        OccursInSuffix(line, ": ", p + 2, i);
      }
    }
  }

  /** The metadata of the banner chunk: every line with a ": " binds the
      text before its last ": " to the text after it; later lines win. */
  function Meta(lines: seq<string>): map<string, string> {
    if |lines| == 0 then map[]
    else
      var last := |lines| - 1;
      match FieldSplit(lines[last])
      case Some(kv) => Meta(lines[..last])[kv.0 := kv.1]
      case None => Meta(lines[..last])
  }

  /** A line binds `k` to `v` in the banner, and no later line names `k`. */
  predicate LastBinding(lines: seq<string>, k: string, v: string, i: int) {
    && 0 <= i < |lines| && FieldSplit(lines[i]) == Some((k, v))
    && forall j :: i < j < |lines| ==> !(FieldSplit(lines[j]).Some? && FieldSplit(lines[j]).value.0 == k)
  }

  /** The keys of the metadata are exactly the keys of the banner's field
      lines. */
  lemma {:induction false} MetaKeys(lines: seq<string>)
    ensures forall k :: k in Meta(lines) <==>
      exists i :: 0 <= i < |lines| && FieldSplit(lines[i]).Some? && FieldSplit(lines[i]).value.0 == k
    decreases |lines|
  {
    if |lines| > 0 {
      var last := |lines| - 1;
      var init := lines[..last];
      MetaKeys(init);
      forall k
        ensures k in Meta(lines) <==>
          exists i :: 0 <= i < |lines| && FieldSplit(lines[i]).Some? && FieldSplit(lines[i]).value.0 == k
      {
        if k in Meta(lines) {
          var f := FieldSplit(lines[last]);
          if !(f.Some? && f.value.0 == k) {
            assert Meta(lines) == (if f.Some? then Meta(init)[f.value.0 := f.value.1] else Meta(init));
            assert k in Meta(init);
            var i :| 0 <= i < |init| && FieldSplit(init[i]).Some? && FieldSplit(init[i]).value.0 == k;
            assert init[i] == lines[i];
          }
        }
        if exists i :: 0 <= i < |lines| && FieldSplit(lines[i]).Some? && FieldSplit(lines[i]).value.0 == k {
          var i :| 0 <= i < |lines| && FieldSplit(lines[i]).Some? && FieldSplit(lines[i]).value.0 == k;
          if i < last {
            assert init[i] == lines[i];
          }
        }
      }
    }
  }

  /** Each key of the metadata is bound to the value of its last field
      line. */
  lemma {:induction false} MetaLastWins(lines: seq<string>)
    ensures forall k :: k in Meta(lines) ==> exists i :: LastBinding(lines, k, Meta(lines)[k], i)
    decreases |lines|
  {
    if |lines| > 0 {
      var last := |lines| - 1;
      var init := lines[..last];
      MetaLastWins(init);
      forall k | k in Meta(lines)
        ensures exists i :: LastBinding(lines, k, Meta(lines)[k], i)
      {
        var f := FieldSplit(lines[last]);
        if f.Some? && f.value.0 == k {
          assert Meta(lines)[k] == f.value.1;
          assert LastBinding(lines, k, Meta(lines)[k], last);
        } else {
          assert k in Meta(init) && Meta(lines)[k] == Meta(init)[k];
          var i :| LastBinding(init, k, Meta(init)[k], i);
          LastBindingExtend(lines, k, Meta(init)[k], i);
        }
      }
    }
  }

  /** A binding stays the last one when the line after it names another key. */
  lemma LastBindingExtend(lines: seq<string>, k: string, v: string, i: int)
    requires |lines| > 0 && LastBinding(lines[..|lines| - 1], k, v, i)
    requires !(FieldSplit(lines[|lines| - 1]).Some? && FieldSplit(lines[|lines| - 1]).value.0 == k)
    ensures LastBinding(lines, k, v, i)
  {
    var init := lines[..|lines| - 1];
    assert lines[i] == init[i];
    forall j | i < j < |lines| ensures !(FieldSplit(lines[j]).Some? && FieldSplit(lines[j]).value.0 == k) {
      if j < |lines| - 1 { assert lines[j] == init[j]; }
    }
  }

  /** The functions listed in a "functions" chunk: every line that starts
      with two spaces and has a ": " after them. */
  function FunctionInfos(lines: seq<string>): seq<ComputeInfo> {
    if |lines| == 0 then []
    else
      var last := |lines| - 1;
      var line := lines[last];
      if StartsWith(line, "  ") && FieldSplit(line[2..]).Some? then
        var kv := FieldSplit(line[2..]).value;
        FunctionInfos(lines[..last]) + [ComputeInfo(kv.0, kv.1)]
      else FunctionInfos(lines[..last])
  }

  /** The functions of a chunk: one per function line, in line order. */
  lemma FunctionInfosFromLines(lines: seq<string>)
    ensures |FunctionInfos(lines)| <= |lines|
    ensures forall c :: c in FunctionInfos(lines) ==>
      exists i :: 0 <= i < |lines| && lines[i] == "  " + c.id + ": " + c.name && !Contains(c.name, ": ")
    ensures forall i :: 0 <= i < |lines| && StartsWith(lines[i], "  ") && FieldSplit(lines[i][2..]).Some? ==>
      FunctionInfos(lines) ==
        FunctionInfos(lines[..i])
        + [ComputeInfo(FieldSplit(lines[i][2..]).value.0, FieldSplit(lines[i][2..]).value.1)]
        + FunctionInfos(lines[i + 1..])
    ensures forall i :: 0 <= i < |lines| && !(StartsWith(lines[i], "  ") && FieldSplit(lines[i][2..]).Some?) ==>
      FunctionInfos(lines) == FunctionInfos(lines[..i]) + FunctionInfos(lines[i + 1..])
  {
    FunctionInfosSources(lines);
    forall i | 0 <= i < |lines| {
      FunctionInfosAt(lines, i);
    }
  }

  /** Every recorded function comes from a line of the chunk: two spaces,
      the id, the last ": " of the line, then the name. */
  lemma {:induction false} FunctionInfosSources(lines: seq<string>)
    ensures |FunctionInfos(lines)| <= |lines|
    ensures forall c :: c in FunctionInfos(lines) ==>
      exists i :: 0 <= i < |lines| && lines[i] == "  " + c.id + ": " + c.name && !Contains(c.name, ": ")
    decreases |lines|
  {
    if |lines| > 0 {
      var last := |lines| - 1;
      FunctionInfosSources(lines[..last]);
      var init := lines[..last];
      var line := lines[last];
      forall c | c in FunctionInfos(lines)
        ensures exists i :: 0 <= i < |lines| && lines[i] == "  " + c.id + ": " + c.name && !Contains(c.name, ": ")
      {
        if c in FunctionInfos(init) {
          var i :| 0 <= i < |init| && init[i] == "  " + c.id + ": " + c.name && !Contains(c.name, ": ");
          assert lines[i] == init[i];
        } else {
          FunctionLine(line);
          assert lines[last] == "  " + c.id + ": " + c.name;
        }
      }
    }
  }

  /** A function line is two spaces, the id, the line's last ": " and the
      name. */
  lemma FunctionLine(line: string)
    requires StartsWith(line, "  ") && FieldSplit(line[2..]).Some?
    ensures var kv := FieldSplit(line[2..]).value;
      line == "  " + kv.0 + ": " + kv.1 && !Contains(kv.1, ": ")
  {
    FieldSplitMeaning(line[2..]);
    assert line == "  " + line[2..];
  }

  /** `/Error: (.*) *$/m`: the rest of the line after the first "Error: ". */
  function ErrorMessage(data: string): (r: Option<string>)
    ensures r.Some? <==> Contains(data, "Error: ")
    ensures r.Some? ==>
      exists p :: OccursAt(data, "Error: " + r.value, p)
                  && (forall j :: 0 <= j < p ==> !OccursAt(data, "Error: ", j))
                  && (p + 7 + |r.value| == |data| || IsLineTerminator(data[p + 7 + |r.value|]))
    ensures r.Some? ==> FreeOf(r.value, LineTerminators)
  {
    match IndexOf(data, "Error: ")
    case None => None
    case Some(p) =>
      var rest := data[p + 7..];
      var m := Lines(rest)[0];
      FirstPieceEnds(rest, LineTerminators);
      assert data[p + 7..p + 7 + |m|] == rest[..|m|];
      OccursConcat(data, "Error: ", m, p);
      assert p + 7 + |m| < |data| ==> data[p + 7 + |m|] == rest[|m|];
      Some(m)
  }

  /** The stage the endpoint pattern looks for: `result.meta.stage`, which
      interpolates as "undefined" when the banner had no stage line. */
  function StageOf(meta: map<string, string>): string {
    if "stage" in meta then meta["stage"] else "undefined"
  }

  // ---------------------------------------------------------------------
  // The data handler and the close handler

  /** The handler for one chunk of standard output. */
  function Step(s: ParserState, chunk: string): (r: ParserState)
    requires Consistent(s)
    ensures Consistent(r)
    ensures s.failure && s.result.Some? ==> r == s
    ensures s.finished ==>
      && r.finished && r.failure == s.failure
      && r.result.value.meta == s.result.value.meta
      && s.result.value.events <= r.result.value.events
      && s.result.value.compute <= r.result.value.compute
    ensures !s.finished && r.finished ==>
      Contains(Trim(chunk), "Service Information") && r.result.value.events == [] && r.result.value.compute == []
    ensures s.result.None? && r.result.Some? && r.result.value.DeployFailed? ==>
      Contains(Trim(chunk), "Error") && ErrorMessage(Trim(chunk)) == Some(r.result.value.message)
    ensures HasDotsLine(Lines(Trim(chunk))) ==> r == s
    ensures s.finished && !s.failure && !HasDotsLine(Lines(Trim(chunk))) ==>
      var data := Trim(chunk);
      var before := s.result.value;
      && r.result.value.events == before.events +
           (if Contains(data, "endpoints") then EndpointEvents(Lines(data), StageOf(before.meta)) else [])
      && r.result.value.compute == before.compute +
           (if !Contains(data, "endpoints") && Contains(data, "functions") then FunctionInfos(Lines(data)) else [])
    ensures !s.finished && r.finished ==>
      r.result == Some(Deployed(Meta(Lines(Trim(chunk))), [], [])) && r.failure == s.failure
    ensures !s.finished && !(s.failure && s.result.Some?) && !HasDotsLine(Lines(Trim(chunk)))
            && !Contains(Trim(chunk), "Service Information") && Contains(Trim(chunk), "Error") ==>
      && !r.finished && r.failure
      && r.result == if ErrorMessage(Trim(chunk)).Some? then Some(DeployFailed(ErrorMessage(Trim(chunk)).value)) else s.result
    ensures !s.finished && !(s.failure && s.result.Some?) && !HasDotsLine(Lines(Trim(chunk)))
            && Contains(Trim(chunk), "Service Information") ==>
      r == ParserState(true, s.failure, Some(Deployed(Meta(Lines(Trim(chunk))), [], [])))
    ensures (!s.finished && !HasDotsLine(Lines(Trim(chunk)))
             && !Contains(Trim(chunk), "Service Information") && !Contains(Trim(chunk), "Error")) ==> r == s
  {
    var data := Trim(chunk);
    var lines := Lines(data);
    if HasDotsLine(lines) then s
    else if s.failure && s.result.Some? then s
    else if s.finished then
      var res := s.result.value;
      if Contains(data, "endpoints") then
        s.(result := Some(res.(events := res.events + EndpointEvents(lines, StageOf(res.meta)))))
      else if Contains(data, "functions") then
        s.(result := Some(res.(compute := res.compute + FunctionInfos(lines))))
      else s
    else if Contains(data, "Service Information") then
      ParserState(true, s.failure, Some(Deployed(Meta(lines), [], [])))
    else if Contains(data, "Error") then
      match ErrorMessage(data)
      case Some(m) => ParserState(s.finished, true, Some(DeployFailed(m)))
      case None => s.(failure := true)
    else s
  }

  /** The handler applied to the chunks in order. */
  function Run(s: ParserState, chunks: seq<string>): (r: ParserState)
    requires Consistent(s)
    ensures Consistent(r)
    decreases |chunks|
  {
    if |chunks| == 0 then s else Run(Step(s, chunks[0]), chunks[1..])
  }

  /** The close handler: the recorded result resolves the deployment,
      whatever the exit code; without one the deployment is rejected. */
  function Settle(s: ParserState, code: int): (r: Settlement)
    ensures r.Resolved? <==> s.result.Some?
    ensures r.Resolved? ==> r.result == s.result.value
  {
    match s.result
    case Some(res) => Resolved(res)
    case None => Rejected
  }

  // ---------------------------------------------------------------------
  // The handler's state as the closure holds it

  class DeployMonitor {
    var finished: bool
    var failure: bool
    var result: Option<DeployResult>

    function State(): ParserState
      reads this
    {
      ParserState(finished, failure, result)
    }

    predicate Valid()
      reads this
    {
      Consistent(State())
    }

    constructor()
      ensures State() == Initial && Valid()
    {
      finished := false;
      failure := false;
      result := None;
    }

    /** `child.stdout.on('data', ...)` */
    method OnData(chunk: string)
      requires Valid()
      modifies this
      ensures State() == Step(old(State()), chunk) && Valid()
    {
      var data := Trim(chunk);
      var lines := Lines(data);
      if HasDotsLine(lines) {
        return;
      }
      if failure && result.Some? {
        return;
      }
      if finished {
        var res := result.value;
        if Contains(data, "endpoints") {
          var found := CollectEndpoints(lines, StageOf(res.meta));
          result := Some(res.(events := res.events + found));
        } else if Contains(data, "functions") {
          var found := CollectFunctions(lines);
          result := Some(res.(compute := res.compute + found));
        }
      } else if Contains(data, "Service Information") {
        finished := true;
        var meta := CollectMeta(lines);
        result := Some(Deployed(meta, [], []));
      } else if Contains(data, "Error") {
        failure := true;
        var parsed := ErrorMessage(data);
        if parsed.Some? {
          result := Some(DeployFailed(parsed.value));
        }
      }
    }

    /** `child.on('close', ...)` */
    method Close(code: int) returns (r: Settlement)
      requires Valid()
      ensures r == Settle(State(), code)
      ensures r.Rejected? ==> !finished
    {
      if result.Some? {
        return Resolved(result.value);
      }
      return Rejected;
    }
  }

  /** The `regex.exec` loop over the endpoint lines of a chunk. */
  method CollectEndpoints(lines: seq<string>, stage: string) returns (found: seq<EndpointEvent>)
    ensures found == EndpointEvents(lines, stage)
  {
    found := [];
    for i := 0 to |lines|
      invariant found == EndpointEvents(lines[..i], stage)
    {
      assert lines[..i + 1][..i] == lines[..i];
      var m := MatchEndpoint(lines[i], stage);
      if m.Some? {
        found := found + [m.value];
      }
    }
    assert lines[..|lines|] == lines;
  }

  /** The `regex.exec` loop over the function lines of a chunk. */
  method CollectFunctions(lines: seq<string>) returns (found: seq<ComputeInfo>)
    ensures found == FunctionInfos(lines)
  {
    found := [];
    for i := 0 to |lines|
      invariant found == FunctionInfos(lines[..i])
    {
      assert lines[..i + 1][..i] == lines[..i];
      var line := lines[i];
      if StartsWith(line, "  ") {
        var kv := FieldSplit(line[2..]);
        if kv.Some? {
          found := found + [ComputeInfo(kv.value.0, kv.value.1)];
        }
      }
    }
    assert lines[..|lines|] == lines;
  }

  /** The `regex.exec` loop that fills `result.meta`. */
  method CollectMeta(lines: seq<string>) returns (meta: map<string, string>)
    ensures meta == Meta(lines)
  {
    meta := map[];
    for i := 0 to |lines|
      invariant meta == Meta(lines[..i])
    {
      assert lines[..i + 1][..i] == lines[..i];
      var kv := FieldSplit(lines[i]);
      if kv.Some? {
        meta := meta[kv.value.0 := kv.value.1];
      }
    }
    assert lines[..|lines|] == lines;
  }

  // ---------------------------------------------------------------------
  // Properties over whole runs

  /** Endpoint lines are read one by one: splitting a chunk's lines in two
      splits the events in two. */
  lemma {:induction false} EndpointEventsConcat(a: seq<string>, b: seq<string>, stage: string)
    ensures EndpointEvents(a + b, stage) == EndpointEvents(a, stage) + EndpointEvents(b, stage)
    decreases |b|
  {
    if |b| > 0 {
      var last := |b| - 1;
      assert (a + b)[..|a + b| - 1] == a + b[..last];
      assert (a + b)[|a + b| - 1] == b[last];
      EndpointEventsConcat(a, b[..last], stage);
    } else {
      assert a + b == a;
    }
  }

  /** Function lines are read one by one too. */
  lemma {:induction false} FunctionInfosConcat(a: seq<string>, b: seq<string>)
    ensures FunctionInfos(a + b) == FunctionInfos(a) + FunctionInfos(b)
    decreases |b|
  {
    if |b| > 0 {
      var last := |b| - 1;
      assert (a + b)[..|a + b| - 1] == a + b[..last];
      assert (a + b)[|a + b| - 1] == b[last];
      FunctionInfosConcat(a, b[..last]);
    } else {
      assert a + b == a;
    }
  }

  /** The functions of a chunk are those of the lines before any one line,
      then that line's record if it is a function line, then those of the
      lines after it. */
  lemma FunctionInfosAt(lines: seq<string>, i: int)
    requires 0 <= i < |lines|
    ensures FunctionInfos(lines) ==
      FunctionInfos(lines[..i])
      + (if StartsWith(lines[i], "  ") && FieldSplit(lines[i][2..]).Some?
         then [ComputeInfo(FieldSplit(lines[i][2..]).value.0, FieldSplit(lines[i][2..]).value.1)] else [])
      + FunctionInfos(lines[i + 1..])
  {
    AroundLine(lines, i);
    FunctionInfosAround(lines[..i], lines[i], lines[i + 1..]);
  }

  /** The functions of the lines around one line and of that line, in
      order. */
  lemma FunctionInfosAround(before: seq<string>, line: string, after: seq<string>)
    ensures FunctionInfos((before + [line]) + after) ==
      FunctionInfos(before)
      + (if StartsWith(line, "  ") && FieldSplit(line[2..]).Some?
         then [ComputeInfo(FieldSplit(line[2..]).value.0, FieldSplit(line[2..]).value.1)] else [])
      + FunctionInfos(after)
  {
    FunctionInfosConcat(before + [line], after);
    assert (before + [line])[..|before|] == before;
  }

  /** Once a result is recorded after a failure, no later chunk changes
      anything: the first error message is the one reported. */
  lemma {:induction false} FailureIsFinal(s: ParserState, chunks: seq<string>)
    requires Consistent(s) && s.failure && s.result.Some?
    ensures Run(s, chunks) == s
    decreases |chunks|
  {
    if |chunks| > 0 {
      FailureIsFinal(Step(s, chunks[0]), chunks[1..]);
    }
  }

  /** After the banner the deployment stays finished, its metadata is
      fixed, and endpoints and functions are only ever appended. */
  lemma {:induction false} FinishedOnlyGrows(s: ParserState, chunks: seq<string>)
    requires Consistent(s) && s.finished
    ensures Run(s, chunks).finished
    ensures Run(s, chunks).result.value.meta == s.result.value.meta
    ensures s.result.value.events <= Run(s, chunks).result.value.events
    ensures s.result.value.compute <= Run(s, chunks).result.value.compute
    decreases |chunks|
  {
    if |chunks| > 0 {
      FinishedOnlyGrows(Step(s, chunks[0]), chunks[1..]);
    }
  }

  /** Before anything is recorded, a chunk shorter than the banner and
      without an "E" changes nothing. */
  lemma QuietChunk(chunk: string)
    requires |chunk| < |"Service Information"| && 'E' !in chunk
    ensures Step(Initial, chunk) == Initial
  {
    var data := Trim(chunk);
    if !HasDotsLine(Lines(data)) {
      var i :| OccursAt(chunk, data, i);
      assert 'E' !in data by {
        forall k | 0 <= k < |data| ensures data[k] != 'E' {
          assert data[k] == chunk[i + k];
        }
      }
      MissingCharExcludes(data, "Error", 'E');
    }
  }

  /** A banner that the CLI's output splits across two chunks is never
      recognised, so the deployment is rejected. */
  lemma SplitBannerRejected(first: string, second: string)
    requires first + second == "Service Information" && first != [] && second != []
    ensures Settle(Run(Initial, [first, second]), 0) == Rejected
  {
    var banner := first + second;
    assert 'E' !in banner;
    assert 'E' !in first by { assert forall k :: 0 <= k < |first| ==> first[k] == banner[k]; }
    assert 'E' !in second by { assert forall k :: 0 <= k < |second| ==> second[k] == banner[|first| + k]; }
    QuietChunk(first);
    QuietChunk(second);
    assert [first, second][1..] == [second] && [second][1..] == [];
    assert Run(Initial, [second]) == Run(Initial, []);
    assert Run(Initial, [first, second]) == Run(Initial, [second]);
  }

  /** A chunk that mentions "Error" without an "Error: " message, followed
      by the banner, resolves the deployment as a success, and every later
      chunk is ignored: no endpoint or function is ever recorded. */
  lemma BareErrorFreezesBanner(error: string, banner: string, chunks: seq<string>)
    requires !HasDotsLine(Lines(Trim(error))) && !Contains(Trim(error), "Service Information")
    requires Contains(Trim(error), "Error") && !Contains(Trim(error), "Error: ")
    requires !HasDotsLine(Lines(Trim(banner))) && Contains(Trim(banner), "Service Information")
    ensures Run(Initial, [error, banner] + chunks).result
            == Some(Deployed(Meta(Lines(Trim(banner))), [], []))
  {
    var s1 := Step(Initial, error);
    assert s1 == ParserState(false, true, None);
    var s2 := Step(s1, banner);
    assert s2 == ParserState(true, true, Some(Deployed(Meta(Lines(Trim(banner))), [], [])));
    var all := [error, banner] + chunks;
    assert all[0] == error && all[1..][0] == banner && all[1..][1..] == chunks;
    FailureIsFinal(s2, chunks);
  }
}
