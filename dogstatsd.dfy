/** The DogStatsD ingestion loop: a datagram source, the frame filter that
    splits a payload into lines and drops the ones that are not metrics, and
    the batch insert of the lines that parse into the shared aggregator.

    The line parser and the aggregator are collaborators whose code is not
    part of this model: `parse` is any function from a line to a metric or
    an error, and the aggregator records every insert it receives. */
module Dogstatsd {
  import opened Wrappers
  import opened Seqs
  import Utf8

  /** Size of the UDP receive buffer; longer datagrams are cut to it. */
  const RECEIVE_BUFFER_SIZE: nat := 8192

  datatype SocketAddr = SocketAddr(ip: seq<Utf8.byte>, port: nat)

  /** A datagram as the network delivers it to `recv_from`. */
  datatype Datagram = Datagram(payload: seq<Utf8.byte>, src: SocketAddr)

  /** Where payloads come from: the bound UDP socket, or a test double that
      hands out one fixed payload and origin on every read. */
  datatype BufferReader =
    | UdpSocketReader
    | MirrorReader(data: seq<Utf8.byte>, addr: SocketAddr)

  /** One read. For the UDP reader, `next` is the datagram the socket
      receives; the mirror ignores it. */
  function Read(reader: BufferReader, next: Datagram): (r: (seq<Utf8.byte>, SocketAddr))
    ensures reader.MirrorReader? ==> r == (reader.data, reader.addr)
    ensures reader.UdpSocketReader? ==>
      && |r.0| <= RECEIVE_BUFFER_SIZE
      && r.0 <= next.payload
      && (|next.payload| <= RECEIVE_BUFFER_SIZE ==> r.0 == next.payload)
      && r.1 == next.src
  {
    match reader
    case UdpSocketReader =>
      var amt := if |next.payload| <= RECEIVE_BUFFER_SIZE then |next.payload| else RECEIVE_BUFFER_SIZE;
      (next.payload[..amt], next.src)
    case MirrorReader(data, addr) => (data, addr)
  }

  // ---------------------------------------------------------------------
  // Frame filter

  /** `str::split(sep)`: the pieces between separators, always at least one
      (an empty string yields one empty piece, a trailing separator a final
      empty piece). No piece contains the separator. */
  function Split(s: string, sep: char): (parts: seq<string>)
    ensures |parts| >= 1
    ensures forall i :: 0 <= i < |parts| ==> sep !in parts[i]
    decreases |s|
  {
    if s == [] then [""]
    else
      var rest := Split(s[1..], sep);
      if s[0] == sep then [""] + rest
      else [[s[0]] + rest[0]] + rest[1..]
  }

  /** The pieces put back together with the separator between them. */
  function Join(parts: seq<string>, sep: char): string
    requires |parts| >= 1
    decreases |parts|
  {
    if |parts| == 1 then parts[0] else parts[0] + [sep] + Join(parts[1..], sep)
  }

  /** Splitting loses nothing: joining the pieces gives the payload back. */
  lemma {:induction false} JoinSplit(s: string, sep: char)
    ensures Join(Split(s, sep), sep) == s
    decreases |s|
  {
    if s != [] {
      var rest := Split(s[1..], sep);
      JoinSplit(s[1..], sep);
      if s[0] == sep {
        assert ([""] + rest)[1..] == rest;
      } else {
        var parts := Split(s, sep);
        if |rest| > 1 {
          assert parts[1..] == rest[1..];
          assert Join(rest, sep) == rest[0] + [sep] + Join(rest[1..], sep);
        }
      }
      assert [s[0]] + s[1..] == s;
    }
  }

  /** A text without the separator is a single piece. */
  lemma {:induction false} SplitWithoutSeparator(s: string, sep: char)
    requires sep !in s
    ensures Split(s, sep) == [s]
    decreases |s|
  {
    if s != [] {
      SplitWithoutSeparator(s[1..], sep);
      assert [s[0]] + s[1..] == s;
    }
  }

  /** A separator after a separator-free prefix starts a new piece. */
  lemma {:induction false} SplitAtSeparator(a: string, b: string, sep: char)
    requires sep !in a
    ensures Split(a + [sep] + b, sep) == [a] + Split(b, sep)
    decreases |a|
  {
    if a == [] {
      assert a + [sep] + b == [sep] + b;
      assert ([sep] + b)[1..] == b;
    } else {
      var s := a + [sep] + b;
      assert s[1..] == a[1..] + [sep] + b;
      SplitAtSeparator(a[1..], b, sep);
      assert [a[0]] + a[1..] == a;
    }
  }

  predicate StartsWith(s: string, prefix: string)
    ensures StartsWith(s, prefix) <==> prefix <= s
  {
    |prefix| <= |s| && s[..|prefix|] == prefix
  }

  const SERVICE_CHECK_PREFIX: string := "_sc|"
  const EVENT_PREFIX: string := "_e{"

  /** A line that may be a metric: not empty, not a service check, not an
      event. */
  predicate IsCandidate(line: string)
    ensures IsCandidate(line) ==> line != ""
    ensures line != "" && line[0] != '_' ==> IsCandidate(line)
    ensures IsCandidate(line) <==> line != "" && !(SERVICE_CHECK_PREFIX <= line) && !(EVENT_PREFIX <= line)
  {
    line != "" && !StartsWith(line, SERVICE_CHECK_PREFIX) && !StartsWith(line, EVENT_PREFIX)
  }

  /** `line.replace('\n', "")`. */
  function RemoveNewlines(line: string): (r: string)
    ensures '\n' !in r
    ensures |r| <= |line|
    decreases |line|
  {
    if line == [] then []
    else
      var last := line[|line| - 1];
      RemoveNewlines(line[..|line| - 1]) + (if last == '\n' then [] else [last])
  }

  /** Removing newlines from a line that has none gives the line back. */
  lemma {:induction false} RemoveNewlinesIdentity(line: string)
    requires '\n' !in line
    ensures RemoveNewlines(line) == line
    decreases |line|
  {
    if line != [] {
      RemoveNewlinesIdentity(line[..|line| - 1]);
      assert line[..|line| - 1] + [line[|line| - 1]] == line;
    }
  }

  /** The lines handed to the parser, in payload order: the candidates with
      their newlines removed. */
  function ParseInputs(lines: seq<string>): (inputs: seq<string>)
    ensures |inputs| <= |lines|
    decreases |lines|
  {
    if lines == [] then []
    else
      var last := lines[|lines| - 1];
      ParseInputs(lines[..|lines| - 1]) + (if IsCandidate(last) then [RemoveNewlines(last)] else [])
  }

  /** The successful parses of `inputs`, in order; a line that fails to parse
      contributes nothing (the `filter_map`). */
  function Parsed<M, E>(parse: string -> Result<M, E>, inputs: seq<string>): (r: seq<M>)
    ensures |r| <= |inputs|
    ensures (forall i :: 0 <= i < |inputs| ==> parse(inputs[i]).Success?) ==> |r| == |inputs|
    decreases |inputs|
  {
    if inputs == [] then []
    else
      var last := inputs[|inputs| - 1];
      Parsed(parse, inputs[..|inputs| - 1]) + (if parse(last).Success? then [parse(last).value] else [])
  }

  /** The metrics `insert_metrics` collects from the pieces of a payload, line
      by line: a candidate line contributes its metric when it parses. */
  function ValidMetrics<M, E>(parse: string -> Result<M, E>, lines: seq<string>): (r: seq<M>)
    ensures |r| <= |lines|
    decreases |lines|
  {
    if lines == [] then []
    else
      var last := lines[|lines| - 1];
      ValidMetrics(parse, lines[..|lines| - 1]) +
        (if IsCandidate(last) then Parsed(parse, [RemoveNewlines(last)]) else [])
  }

  /** Every collected metric is what the parser returned for some candidate
      line of the payload. */
  lemma {:induction false} ValidMetricsProvenance<M, E>(parse: string -> Result<M, E>, lines: seq<string>, m: M)
    requires m in ValidMetrics(parse, lines)
    ensures exists i :: 0 <= i < |lines| && IsCandidate(lines[i]) && parse(RemoveNewlines(lines[i])) == Success(m)
    decreases |lines|
  {
    var init, last := lines[..|lines| - 1], lines[|lines| - 1];
    if m in ValidMetrics(parse, init) {
      ValidMetricsProvenance(parse, init, m);
      var i :| 0 <= i < |init| && IsCandidate(init[i]) && parse(RemoveNewlines(init[i])) == Success(m);
      assert lines[i] == init[i];
    } else {
      assert IsCandidate(last) && m in Parsed(parse, [RemoveNewlines(last)]);
      ParsedProvenance(parse, [RemoveNewlines(last)], m);
      assert lines[|lines| - 1] == last;
    }
  }

  /** Every successful parse comes from one of the inputs. */
  lemma {:induction false} ParsedProvenance<M, E>(parse: string -> Result<M, E>, inputs: seq<string>, m: M)
    requires m in Parsed(parse, inputs)
    ensures exists i :: 0 <= i < |inputs| && parse(inputs[i]) == Success(m)
    decreases |inputs|
  {
    var init, last := inputs[..|inputs| - 1], inputs[|inputs| - 1];
    if m in Parsed(parse, init) {
      ParsedProvenance(parse, init, m);
      var i :| 0 <= i < |init| && parse(init[i]) == Success(m);
      assert inputs[i] == init[i];
    }
  }

  /** The collected metrics are the successful parses of the lines that pass
      the filter, in line order: filtering happens before parsing. */
  lemma {:induction false} ValidMetricsFilterThenParse<M, E>(parse: string -> Result<M, E>, lines: seq<string>)
    ensures ValidMetrics(parse, lines) == Parsed(parse, ParseInputs(lines))
    decreases |lines|
  {
    if lines != [] {
      var init, last := lines[..|lines| - 1], lines[|lines| - 1];
      ValidMetricsFilterThenParse(parse, init);
      var tail := if IsCandidate(last) then [RemoveNewlines(last)] else [];
      ParsedAppend(parse, ParseInputs(init), tail);
    }
  }

  /** On lines without newlines, which is what splitting a payload on
      newlines produces, the removal of newlines does nothing: the parser sees
      the candidate lines themselves. */
  lemma {:induction false} ParseInputsOfSplitLines(lines: seq<string>)
    requires forall i :: 0 <= i < |lines| ==> '\n' !in lines[i]
    ensures ParseInputs(lines) == Filter(lines, IsCandidate)
    decreases |lines|
  {
    if lines != [] {
      var last := lines[|lines| - 1];
      ParseInputsOfSplitLines(lines[..|lines| - 1]);
      RemoveNewlinesIdentity(last);
    }
  }

  lemma SplitPiecesReachParserUnchanged(payload: string)
    ensures ParseInputs(Split(payload, '\n')) == Filter(Split(payload, '\n'), IsCandidate)
  {
    ParseInputsOfSplitLines(Split(payload, '\n'));
  }

  /** No empty line, service check or event of a payload is ever handed to
      the parser. */
  lemma NothingFilteredIsParsed(payload: string)
    ensures forall i :: 0 <= i < |ParseInputs(Split(payload, '\n'))| ==>
      var input := ParseInputs(Split(payload, '\n'))[i];
      input != "" && !StartsWith(input, SERVICE_CHECK_PREFIX) && !StartsWith(input, EVENT_PREFIX)
  {
    SplitPiecesReachParserUnchanged(payload);
  }

  /** Parsing distributes over concatenation: the metrics of two runs of lines
      are the metrics of each run, in order. */
  lemma {:induction false} ParsedAppend<M, E>(parse: string -> Result<M, E>, a: seq<string>, b: seq<string>)
    ensures Parsed(parse, a + b) == Parsed(parse, a) + Parsed(parse, b)
    decreases |b|
  {
    if b == [] {
      assert a + b == a;
    } else {
      assert (a + b)[..|a + b| - 1] == a + b[..|b| - 1];
      ParsedAppend(parse, a, b[..|b| - 1]);
    }
  }

  /** A line that fails to parse is dropped, and only that line: the lines
      around it contribute exactly what they would without it. */
  lemma FailedParseDropsOnlyThatLine<M, E>(parse: string -> Result<M, E>, before: seq<string>, line: string, after: seq<string>)
    requires parse(line).Failure?
    ensures Parsed(parse, before + [line] + after) == Parsed(parse, before) + Parsed(parse, after)
  {
    ParsedAppend(parse, before + [line], after);
    ParsedAppend(parse, before, [line]);
  }

  /** A line that parses contributes its metric at its own position. */
  lemma ParsedLineKeepsItsPlace<M, E>(parse: string -> Result<M, E>, before: seq<string>, line: string, after: seq<string>)
    requires parse(line).Success?
    ensures Parsed(parse, before + [line] + after) == Parsed(parse, before) + [parse(line).value] + Parsed(parse, after)
  {
    ParsedAppend(parse, before + [line], after);
    ParsedAppend(parse, before, [line]);
  }

  /** Nothing is collected exactly when every line fails to parse. */
  lemma {:induction false} ParsedEmpty<M, E>(parse: string -> Result<M, E>, inputs: seq<string>)
    ensures Parsed(parse, inputs) == [] <==> forall i :: 0 <= i < |inputs| ==> parse(inputs[i]).Failure?
    decreases |inputs|
  {
    if inputs != [] {
      ParsedEmpty(parse, inputs[..|inputs| - 1]);
    }
  }

  /** A service check on its own line is filtered out before parsing (the
      `test_dogstatsd_filter_service_check` case uses `_sc|servicecheck|0`). */
  lemma ServiceCheckIsNotParsed(line: string)
    requires StartsWith(line, SERVICE_CHECK_PREFIX) && '\n' !in line
    ensures ParseInputs(Split(line, '\n')) == []
  {
    SplitWithoutSeparator(line, '\n');
    assert Filter([line], IsCandidate) == Filter([], IsCandidate) + [];
  }

  /** An event on its own line is filtered out before parsing (the
      `test_dogstatsd_filter_event` case uses `_e{5,10}:event|test event`). */
  lemma EventIsNotParsed(line: string)
    requires StartsWith(line, EVENT_PREFIX) && '\n' !in line
    ensures ParseInputs(Split(line, '\n')) == []
  {
    SplitWithoutSeparator(line, '\n');
    assert Filter([line], IsCandidate) == Filter([], IsCandidate) + [];
  }

  /** A payload of three newline-terminated metric lines hands exactly those
      three lines to the parser, in payload order; the empty piece after the
      final newline is dropped (the shape of
      `test_dogstatsd_multi_metric`). */
  lemma ThreeLinePayload(l1: string, l2: string, l3: string)
    requires IsCandidate(l1) && IsCandidate(l2) && IsCandidate(l3)
    requires '\n' !in l1 && '\n' !in l2 && '\n' !in l3
    ensures ParseInputs(Split(l1 + "\n" + l2 + "\n" + l3 + "\n", '\n')) == [l1, l2, l3]
  {
    var payload := l1 + "\n" + l2 + "\n" + l3 + "\n";
    SplitThreeLines(l1, l2, l3);
    var pieces := [l1, l2, l3, ""];
    assert pieces[..3] == [l1, l2, l3];
    FilterAll([l1, l2, l3], IsCandidate);
    assert Filter(pieces, IsCandidate) == [l1, l2, l3];
    SplitPiecesReachParserUnchanged(payload);
  }

  /** Three newline-terminated lines split into those lines and an empty
      last piece. */
  lemma SplitThreeLines(l1: string, l2: string, l3: string)
    requires '\n' !in l1 && '\n' !in l2 && '\n' !in l3
    ensures Split(l1 + "\n" + l2 + "\n" + l3 + "\n", '\n') == [l1, l2, l3, ""]
  {
    var t3 := l3 + ['\n'] + "";
    var t2 := l2 + ['\n'] + t3;
    var t1 := l1 + ['\n'] + t2;
    assert l1 + "\n" + l2 + "\n" + l3 + "\n" == t1;
    SplitAtSeparator(l3, "", '\n');
    assert Split(t3, '\n') == [l3, ""];
    SplitAtSeparator(l2, t3, '\n');
    assert Split(t2, '\n') == [l2, l3, ""];
    SplitAtSeparator(l1, t2, '\n');
    assert Split(t1, '\n') == [l1, l2, l3, ""];
  }

  // ---------------------------------------------------------------------
  // The shared aggregator, seen from the ingestion loop

  datatype AggregatorError = Rejected

  /** The aggregator behind its mutex. Only what the loop can observe is
      modelled: each call of `insert` is recorded in order, `rejects` says
      which inserts fail (for reasons internal to the aggregator), and the lock is held (`locked`) while inserts run and counts
      its acquisitions. */
  class Aggregator<M> {
    var inserted: seq<M>
    var locked: bool
    var acquisitions: nat
    const rejects: M -> bool

    constructor (rejects: M -> bool)
      ensures inserted == [] && !locked && acquisitions == 0 && this.rejects == rejects
    {
      inserted, locked, acquisitions := [], false, 0;
      this.rejects := rejects;
    }

    method Lock()
      requires !locked
      modifies this
      ensures locked && acquisitions == old(acquisitions) + 1 && inserted == old(inserted)
    {
      locked, acquisitions := true, acquisitions + 1;
    }

    /** Dropping the guard. */
    method Unlock()
      requires locked
      modifies this
      ensures !locked && acquisitions == old(acquisitions) && inserted == old(inserted)
    {
      locked := false;
    }

    method Insert(metric: M) returns (r: Result<(), AggregatorError>)
      requires locked
      modifies this
      ensures inserted == old(inserted) + [metric]
      ensures locked && acquisitions == old(acquisitions)
      ensures r.Failure? <==> rejects(metric)
    {
      inserted := inserted + [metric];
      r := if rejects(metric) then Failure(Rejected) else Success(());
    }
  }

  // ---------------------------------------------------------------------
  // The ingestion loop

  /** The index of the iteration after which the token is first seen
      cancelled, plus one: how many datagrams `spin` consumes when
      `cancelledAfter[i]` is what `is_cancelled` returns after iteration i. */
  function SpinIterations(cancelledAfter: seq<bool>): (n: nat)
    requires exists k :: 0 <= k < |cancelledAfter| && cancelledAfter[k]
    ensures 1 <= n <= |cancelledAfter|
    ensures cancelledAfter[n - 1]
    ensures forall j :: 0 <= j < n - 1 ==> !cancelledAfter[j]
  {
    FindFirst(cancelledAfter, (b: bool) => b).value + 1
  }

  class DogStatsD<M, E> {
    const aggregator: Aggregator<M>
    const bufferReader: BufferReader
    const parse: string -> Result<M, E>

    constructor (aggregator: Aggregator<M>, bufferReader: BufferReader, parse: string -> Result<M, E>)
      ensures this.aggregator == aggregator && this.bufferReader == bufferReader && this.parse == parse
    {
      this.aggregator, this.bufferReader, this.parse := aggregator, bufferReader, parse;
    }

    /** The payload read when `next` arrives is valid UTF-8; a payload that
        is not makes `consume_statsd` panic. */
    predicate Readable(next: Datagram) {
      Utf8.IsValid(Read(bufferReader, next).0)
    }

    /** The metrics one readable datagram contributes. An unreadable one never
        gets this far (`ConsumeStatsd` and `Spin` require readability), so
        it is given none. */
    function DatagramMetrics(next: Datagram): seq<M> {
      match Utf8.Decode(Read(bufferReader, next).0)
      case Some(msgs) => ValidMetrics(parse, Split(msgs, '\n'))
      case None => []
    }

    /** The metrics the first `k` datagrams contribute, in arrival order. */
    function RunMetrics(arrivals: seq<Datagram>, k: nat): seq<M>
      requires k <= |arrivals|
    {
      if k == 0 then [] else RunMetrics(arrivals, k - 1) + DatagramMetrics(arrivals[k - 1])
    }

    /** How many lock acquisitions the first `k` datagrams cause: one per
        datagram that yields at least one metric. */
    function RunAcquisitions(arrivals: seq<Datagram>, k: nat): nat
      requires k <= |arrivals|
    {
      if k == 0 then 0
      else RunAcquisitions(arrivals, k - 1) + (if |DatagramMetrics(arrivals[k - 1])| == 0 then 0 else 1)
    }

    /** One more datagram extends the run by its own metrics. */
    lemma RunStep(arrivals: seq<Datagram>, k: nat, start: seq<M>, startAcquisitions: nat, before: seq<M>, acquisitions: nat)
      requires k < |arrivals|
      requires before == start + RunMetrics(arrivals, k)
      requires acquisitions == startAcquisitions + RunAcquisitions(arrivals, k)
      ensures before + DatagramMetrics(arrivals[k]) == start + RunMetrics(arrivals, k + 1)
      ensures acquisitions + (if |DatagramMetrics(arrivals[k])| == 0 then 0 else 1)
           == startAcquisitions + RunAcquisitions(arrivals, k + 1)
    {
      var run, d := RunMetrics(arrivals, k), DatagramMetrics(arrivals[k]);
      assert RunMetrics(arrivals, k + 1) == run + d;
      assert before + d == start + (run + d);
    }

    /** Collects the metrics of `msg` and, when there is at least one, inserts
        them all in order under a single acquisition of the lock; failed
        inserts are ignored. */
    method InsertMetrics(msg: seq<string>)
      requires !aggregator.locked
      modifies aggregator
      ensures aggregator.inserted == old(aggregator.inserted) + ValidMetrics(parse, msg)
      ensures aggregator.acquisitions == old(aggregator.acquisitions) + (if |ValidMetrics(parse, msg)| == 0 then 0 else 1)
      ensures !aggregator.locked
    {
      var allValidMetrics := ValidMetrics(parse, msg);
      if allValidMetrics != [] {
        aggregator.Lock();
        var i := 0;
        while i < |allValidMetrics|
          invariant 0 <= i <= |allValidMetrics|
          invariant aggregator.locked
          invariant aggregator.inserted == old(aggregator.inserted) + allValidMetrics[..i]
          invariant aggregator.acquisitions == old(aggregator.acquisitions) + 1
        {
          var _ := aggregator.Insert(allValidMetrics[i]);
          assert allValidMetrics[..i + 1] == allValidMetrics[..i] + [allValidMetrics[i]];
          i := i + 1;
        }
        assert allValidMetrics[..i] == allValidMetrics;
        aggregator.Unlock();
      }
    }

    /** Reads one datagram, decodes it as text and inserts its metrics. */
    method ConsumeStatsd(next: Datagram)
      requires Readable(next)
      requires !aggregator.locked
      modifies aggregator
      ensures aggregator.inserted == old(aggregator.inserted) + DatagramMetrics(next)
      ensures aggregator.acquisitions == old(aggregator.acquisitions) + (if |DatagramMetrics(next)| == 0 then 0 else 1)
      ensures !aggregator.locked
    {
      var (buf, src) := Read(bufferReader, next);
      var msgs := Utf8.Decode(buf).value;
      InsertMetrics(Split(msgs, '\n'));
    }

    /** Consumes datagrams until the token is seen cancelled. The token is
        looked at only after a datagram has been consumed, so at least one is
        consumed, and the loop stops after the first iteration at whose end
        the token is cancelled. */
    method Spin(arrivals: seq<Datagram>, cancelledAfter: seq<bool>) returns (iterations: nat)
      requires exists k :: 0 <= k < |cancelledAfter| && cancelledAfter[k]
      requires SpinIterations(cancelledAfter) <= |arrivals|
      requires forall i :: 0 <= i < |arrivals| ==> Readable(arrivals[i])
      requires !aggregator.locked
      modifies aggregator
      ensures iterations == SpinIterations(cancelledAfter)
      ensures aggregator.inserted == old(aggregator.inserted) + RunMetrics(arrivals, iterations)
      ensures aggregator.acquisitions == old(aggregator.acquisitions) + RunAcquisitions(arrivals, iterations)
      ensures !aggregator.locked
    {
      var n := SpinIterations(cancelledAfter);
      var spinCancelled := false;
      iterations := 0;
      ghost var start, startAcquisitions := aggregator.inserted, aggregator.acquisitions;
      while !spinCancelled
        invariant iterations <= n
        invariant spinCancelled <==> iterations == n
        invariant !aggregator.locked
        invariant aggregator.inserted == start + RunMetrics(arrivals, iterations)
        invariant aggregator.acquisitions == startAcquisitions + RunAcquisitions(arrivals, iterations)
        decreases n - iterations
      {
        ghost var before, acquisitions := aggregator.inserted, aggregator.acquisitions;
        ConsumeStatsd(arrivals[iterations]);
        RunStep(arrivals, iterations, start, startAcquisitions, before, acquisitions);
        spinCancelled := cancelledAfter[iterations];
        iterations := iterations + 1;
      }
    }
  }
}
