/**
 The AMI wire: an optional greeting line, then packets ended by an empty line; how a packet's
 text becomes fields, and how an action becomes text that can only ever be one packet.
 */
module AmiStream {
  import opened Options
  import opened Text
  import opened Chunks

  const CRLF := "\r\n"
  const PACKET_SEPARATOR := "\r\n\r\n"
  const BANNER_PREFIX := "Asterisk Call Manager"

  type Packet = map<string, string>

  function Collect<A, B>(f: A -> seq<B>, xs: seq<A>): seq<B> {
    if xs == [] then [] else f(xs[0]) + Collect(f, xs[1..])
  }

  lemma {:induction false} CollectConcat<A, B>(f: A -> seq<B>, xs: seq<A>, ys: seq<A>)
    ensures Collect(f, xs + ys) == Collect(f, xs) + Collect(f, ys)
  {
    if xs == [] {
      assert xs + ys == ys;
    } else {
      CollectConcat(f, xs[1..], ys);
      assert (xs + ys)[1..] == xs[1..] + ys;
      var head, tail, others := f(xs[0]), Collect(f, xs[1..]), Collect(f, ys);
      assert head + (tail + others) == (head + tail) + others;
    }
  }

  // ------------------------------------------------------------------
  // Splitting the stream
  // ------------------------------------------------------------------

  /** The texts between separators. */
  function Raws(b: string): seq<string>
    decreases |b|
  {
    var i := IndexOf(b, PACKET_SEPARATOR);
    if i == -1 then [] else [b[..i]] + Raws(b[i + 4..])
  }

  lemma RawsStep<B>(b: string, f: string -> seq<B>)
    requires IndexOf(b, PACKET_SEPARATOR) != -1
    ensures var i := IndexOf(b, PACKET_SEPARATOR); Collect(f, Raws(b)) == f(b[..i]) + Collect(f, Raws(b[i + 4..]))
  {
  }

  /** What follows the last separator. */
  function Residual(b: string): string
    decreases |b|
  {
    var i := IndexOf(b, PACKET_SEPARATOR);
    if i == -1 then b else Residual(b[i + 4..])
  }

  /** Wherever a chunk boundary falls, even inside a separator, splitting can go on from the residue. */
  lemma {:induction false} SplittingResumes(b: string, more: string)
    ensures Raws(b + more) == Raws(b) + Raws(Residual(b) + more)
    ensures Residual(b + more) == Residual(Residual(b) + more)
    decreases |b|
  {
    var i := IndexOf(b, PACKET_SEPARATOR);
    if i != -1 {
      IndexOfStable(b, more, PACKET_SEPARATOR);
      assert (b + more)[i + 4..] == b[i + 4..] + more;
      assert (b + more)[..i] == b[..i];
      SplittingResumes(b[i + 4..], more);
    }
  }

  function Rebuilt(raws: seq<string>): string {
    if raws == [] then "" else raws[0] + PACKET_SEPARATOR + Rebuilt(raws[1..])
  }

  lemma CutAtSeparator(b: string)
    requires IndexOf(b, PACKET_SEPARATOR) != -1
    ensures var i := IndexOf(b, PACKET_SEPARATOR); b == (b[..i] + PACKET_SEPARATOR) + b[i + 4..]
  {
    IndexOfIsFirst(b, PACKET_SEPARATOR, 0);
    var i := IndexOf(b, PACKET_SEPARATOR);
    assert b[i..i + 4] == PACKET_SEPARATOR;
  }

  lemma RebuiltStep(raw: string, raws: seq<string>)
    ensures Rebuilt([raw] + raws) == (raw + PACKET_SEPARATOR) + Rebuilt(raws)
  {
    assert ([raw] + raws)[1..] == raws;
  }

  /** Splitting loses nothing: the texts, their separators and the residue are the stream. */
  lemma {:induction false} SplittingIsExact(b: string)
    ensures Rebuilt(Raws(b)) + Residual(b) == b
    ensures IndexOf(Residual(b), PACKET_SEPARATOR) == -1
    decreases |b|
  {
    var i := IndexOf(b, PACKET_SEPARATOR);
    if i != -1 {
      SplittingIsExact(b[i + 4..]);
      var head, tail := b[..i], b[i + 4..];
      CutAtSeparator(b);
      RebuiltStep(head, Raws(tail));
      Associates(head + PACKET_SEPARATOR, Rebuilt(Raws(tail)), Residual(tail));
    }
  }

  /** What is left after the greeting, if the first line is one. */
  function Body(b: string): string
    requires IndexOf(b, CRLF) != -1
  {
    var end := IndexOf(b, CRLF);
    if BANNER_PREFIX <= b[..end] then b[end + 2..] else b
  }

  function Greeting(b: string): Option<string>
    requires IndexOf(b, CRLF) != -1
  {
    var end := IndexOf(b, CRLF);
    if BANNER_PREFIX <= b[..end] then Some(Trim(b[..end])) else None
  }

  lemma BodyResumes(b: string, more: string)
    requires IndexOf(b, CRLF) != -1
    ensures IndexOf(b + more, CRLF) != -1
    ensures Body(b + more) == Body(b) + more && Greeting(b + more) == Greeting(b)
  {
    IndexOfStable(b, more, CRLF);
    var end := IndexOf(b, CRLF);
    assert (b + more)[..end] == b[..end];
    assert (b + more)[end + 2..] == b[end + 2..] + more;
  }

  // ------------------------------------------------------------------
  // Fields
  // ------------------------------------------------------------------

  function Lines(raw: string): seq<string>
    decreases |raw|
  {
    var i := IndexOf(raw, CRLF);
    if i == -1 then [raw] else [raw[..i]] + Lines(raw[i + 2..])
  }

  /** A repeated key collects its values. */
  function Collected(p: Packet, key: string, value: string): Packet {
    p[key := if key in p then p[key] + "\n" + value else value]
  }

  function AddField(p: Packet, line: string): Packet {
    var separator := IndexOf(line, ":");
    if line == "" || separator == -1 then p
    else
      var key, value := Trim(line[..separator]), Trim(line[separator + 1..]);
      if key == "" then p else Collected(p, key, value)
  }

  function AddFields(p: Packet, lines: seq<string>): Packet
    decreases |lines|
  {
    if lines == [] then p else AddFields(AddField(p, lines[0]), lines[1..])
  }

  function ParsePacket(raw: string): Packet {
    AddFields(map[], Lines(raw))
  }

  /** Blank texts are skipped. */
  function ParsedOne(raw: string): seq<Packet> {
    if Trim(raw) == "" then [] else [ParsePacket(raw)]
  }

  function Parsed(raws: seq<string>): seq<Packet> {
    Collect(ParsedOne, raws)
  }

  // ------------------------------------------------------------------
  // The reader
  // ------------------------------------------------------------------

  class AmiReader {
    var buffer: string
    var bannerConsumed: bool
    var banner: Option<string>
    /** Every packet passed on, oldest first. */
    var handled: seq<Packet>
    /** Everything the socket has delivered. */
    ghost var fed: string

    ghost predicate Valid()
      reads this
    {
      if IndexOf(fed, CRLF) == -1 then
        !bannerConsumed && buffer == fed && handled == [] && banner.None?
      else
        && bannerConsumed && banner == Greeting(fed)
        && buffer == Residual(Body(fed)) && handled == Parsed(Raws(Body(fed)))
    }

    constructor ()
      ensures Valid() && fed == ""
    {
      buffer, bannerConsumed, banner, handled, fed := "", false, None, [], "";
    }

    method OnData(chunk: string)
      requires Valid()
      modifies this
      ensures Valid() && fed == old(fed) + chunk
    {
      ghost var before := fed;
      fed := fed + chunk;
      buffer := buffer + chunk;
      if !bannerConsumed {
        var ready := ConsumeGreeting();
        if !ready {
          return;
        }
      } else {
        BodyResumes(before, chunk);
        SplittingResumes(Body(before), chunk);
        CollectConcat(ParsedOne, Raws(Body(before)), Raws(buffer));
      }
      HandleComplete();
    }

    /** The greeting has no empty line after it, so the first line decides whether it is one. */
    method ConsumeGreeting() returns (ready: bool)
      requires !bannerConsumed && banner.None?
      modifies this`buffer, this`bannerConsumed, this`banner
      ensures ready == bannerConsumed == (IndexOf(old(buffer), CRLF) != -1)
      ensures !ready ==> buffer == old(buffer) && banner.None?
      ensures ready ==> buffer == Body(old(buffer)) && banner == Greeting(old(buffer))
    {
      var lineEnd := IndexOf(buffer, CRLF);
      if lineEnd == -1 {
        return false;
      }
      var firstLine := buffer[..lineEnd];
      if BANNER_PREFIX <= firstLine {
        banner := Some(Trim(firstLine));
        buffer := buffer[lineEnd + 2..];
      }
      bannerConsumed := true;
      ready := true;
    }

    /** The loop over the complete packets of the buffer. */
    method HandleComplete()
      modifies this`buffer, this`handled
      ensures buffer == Residual(old(buffer)) && handled == old(handled) + Parsed(Raws(old(buffer)))
    {
      var boundary := IndexOf(buffer, PACKET_SEPARATOR);
      while boundary != -1
        invariant boundary == IndexOf(buffer, PACKET_SEPARATOR)
        invariant Residual(buffer) == Residual(old(buffer))
        invariant handled + Parsed(Raws(buffer)) == old(handled) + Parsed(Raws(old(buffer)))
        decreases |buffer|
      {
        var raw := buffer[..boundary];
        RawsStep(buffer, ParsedOne);
        buffer := buffer[boundary + |PACKET_SEPARATOR|..];
        Associates(handled, ParsedOne(raw), Parsed(Raws(buffer)));
        HandleRaw(raw);
        boundary := IndexOf(buffer, PACKET_SEPARATOR);
      }
    }

    method HandleRaw(raw: string)
      modifies this`handled
      ensures handled == old(handled) + ParsedOne(raw)
    {
      if |Trim(raw)| > 0 {
        handled := handled + [ParsePacket(raw)];
      }
    }
  }

  lemma Associates<T>(a: seq<T>, b: seq<T>, c: seq<T>)
    ensures (a + b) + c == a + (b + c)
  {
  }

  /** For any chunking the packets handled are those of the whole stream after the optional greeting. */
  method ReadChunks(chunks: seq<string>) returns (handled: seq<Packet>)
    ensures handled == if IndexOf(Concat(chunks), CRLF) == -1 then [] else Parsed(Raws(Body(Concat(chunks))))
  {
    var reader := new AmiReader();
    assert chunks[..|chunks|] == chunks;
    for i := 0 to |chunks|
      invariant fresh(reader) && reader.Valid() && reader.fed == Concat(chunks[..i])
    {
      assert chunks[..i + 1][..i] == chunks[..i];
      reader.OnData(chunks[i]);
    }
    handled := reader.handled;
  }

  // ------------------------------------------------------------------
  // Sending an action
  // ------------------------------------------------------------------

  predicate IsBreak(c: char) {
    c == '\r' || c == '\n'
  }

  /** Every run of line breaks becomes one space. */
  function Sanitised(value: string): string {
    if value == "" then ""
    else if !IsBreak(value[0]) then [value[0]] + Sanitised(value[1..])
    else if |value| > 1 && IsBreak(value[1]) then Sanitised(value[1..])
    else " " + Sanitised(value[1..])
  }

  predicate Unbroken(s: string) {
    forall i :: 0 <= i < |s| ==> !IsBreak(s[i])
  }

  lemma {:induction false} SanitisedIsUnbroken(value: string)
    ensures Unbroken(Sanitised(value))
    ensures Unbroken(value) ==> Sanitised(value) == value
  {
    if value != "" {
      SanitisedIsUnbroken(value[1..]);
    }
  }

  /** A whole run of line breaks becomes one space, wherever it stands, and the rest stays. */
  lemma {:induction false} SanitisedRun(head: string, breaks: string, tail: string)
    requires Unbroken(head) && breaks != "" && forall i :: 0 <= i < |breaks| ==> IsBreak(breaks[i])
    requires tail == "" || !IsBreak(tail[0])
    ensures Sanitised(head + breaks + tail) == head + " " + Sanitised(tail)
    decreases |head|, |breaks|
  {
    var s := head + breaks + tail;
    if head != "" {
      SanitisedRun(head[1..], breaks, tail);
      assert s[1..] == head[1..] + breaks + tail;
      assert head + " " + Sanitised(tail) == [head[0]] + (head[1..] + " " + Sanitised(tail));
    } else if |breaks| > 1 {
      SanitisedRun("", breaks[1..], tail);
      assert s[1..] == "" + breaks[1..] + tail;
    } else {
      assert s[1..] == tail;
    }
  }

  /** A first line is a banner exactly when it starts with the product's name; then, and only then, it is no packet text. */
  lemma BannerExactly(line: string, rest: string)
    requires Unbroken(line)
    ensures var b := line + CRLF + rest;
      && IndexOf(b, CRLF) == |line|
      && (|line| >= 21 && line[..21] == "Asterisk Call Manager" ==> Body(b) == rest && Greeting(b) == Some(Trim(line)))
      && (!(|line| >= 21 && line[..21] == "Asterisk Call Manager") ==> Body(b) == b && Greeting(b) == None)
  {
    var b := line + (CRLF + rest);
    assert b == line + CRLF + rest && b[..|line|] == line && b[|line| + 2..] == rest;
    assert IndexOf(CRLF + rest, CRLF) == 0 by {
      assert (CRLF + rest)[0..2] == CRLF;
    }
    SkipUnbroken(line, CRLF + rest, CRLF);
  }

  /** A text between separators is skipped exactly when it is all blanks. */
  lemma SkippedExactly(raw: string)
    ensures ParsedOne(raw) == [] <==> forall i :: 0 <= i < |raw| ==> Blank(raw[i])
  {
    var i, j := TrimExactly(raw);
  }

  /** A line without a colon adds no field. */
  lemma NoColonNoField(p: Packet, line: string)
    requires forall i :: 0 <= i < |line| ==> line[i] != ':'
    ensures AddField(p, line) == p
  {
    var n := IndexOf(line, ":");
    IndexOfIsFirst(line, ":", 0);
    if n != -1 {
      AtColon(line, n);
      assert false;
    }
  }

  lemma AtColon(line: string, n: nat)
    requires At(line, n, ":")
    ensures n < |line| && line[n] == ':'
  {
    assert line[n..n + 1][0] == line[n];
  }

  /** Nor does one with nothing but blanks before its colon. */
  lemma BlankKeyNoField(p: Packet, line: string, k: nat)
    requires k < |line| && line[k] == ':' && forall i :: 0 <= i < k ==> Blank(line[i])
    ensures AddField(p, line) == p
  {
    assert line[k..k + 1] == ":";
    IndexOfIsFirst(line, ":", k);
    var n := IndexOf(line, ":");
    var i, j := TrimExactly(line[..n]);
    assert forall m :: 0 <= m < n ==> line[..n][m] == line[m];
  }

  datatype Param = Param(key: string, value: string)

  function ParamLines(params: seq<Param>): seq<string> {
    if params == [] then []
    else [params[0].key + ": " + Sanitised(params[0].value)] + ParamLines(params[1..])
  }

  function ActionLines(name: string, actionId: string, params: seq<Param>): seq<string> {
    ["Action: " + name, "ActionID: " + actionId] + ParamLines(params)
  }

  function JoinLines(lines: seq<string>): string
    requires lines != []
  {
    if |lines| == 1 then lines[0] else lines[0] + CRLF + JoinLines(lines[1..])
  }

  /** What dispatch writes to the socket. */
  function Payload(name: string, actionId: string, params: seq<Param>): string {
    JoinLines(ActionLines(name, actionId, params)) + PACKET_SEPARATOR
  }

  ghost predicate WholeLines(lines: seq<string>) {
    forall i :: 0 <= i < |lines| ==> lines[i] != "" && Unbroken(lines[i])
  }

  /** No line break, no occurrence of a pattern that starts with one. */
  lemma {:induction false} SkipUnbroken(line: string, rest: string, pattern: string)
    requires Unbroken(line) && pattern != "" && pattern[0] == '\r'
    ensures IndexOf(rest, pattern) != -1 ==> IndexOf(line + rest, pattern) == |line| + IndexOf(rest, pattern)
    ensures IndexOf(rest, pattern) == -1 ==> IndexOf(line + rest, pattern) == -1
  {
    if line == "" {
      assert line + rest == rest;
    } else {
      SkipUnbroken(line[1..], rest, pattern);
      assert (line + rest)[1..] == line[1..] + rest;
      AtHead(line + rest, pattern);
    }
  }

  lemma AtHead(s: string, pattern: string)
    requires pattern != ""
    ensures At(s, 0, pattern) ==> s != "" && s[0] == pattern[0]
  {
  }

  /** A line end followed by more text is not an empty line. */
  lemma SkipLineEnd(rest: string, pattern: string)
    requires pattern == PACKET_SEPARATOR && rest != "" && !IsBreak(rest[0])
    ensures IndexOf(rest, pattern) != -1 ==> IndexOf(CRLF + rest, pattern) == 2 + IndexOf(rest, pattern)
  {
  }

  lemma {:induction false} SeparatorAtEnd(lines: seq<string>)
    requires lines != [] && WholeLines(lines)
    ensures IndexOf(JoinLines(lines) + PACKET_SEPARATOR, PACKET_SEPARATOR) == |JoinLines(lines)|
    ensures JoinLines(lines) != "" && !IsBreak(JoinLines(lines)[0])
    decreases |lines|
  {
    var sep := PACKET_SEPARATOR;
    if |lines| == 1 {
      assert IndexOf(sep, sep) == 0;
      SkipUnbroken(lines[0], sep, sep);
    } else {
      var rest := JoinLines(lines[1..]) + sep;
      SeparatorAtEnd(lines[1..]);
      SkipLineEnd(rest, sep);
      SkipUnbroken(lines[0], CRLF + rest, sep);
      assert JoinLines(lines) + sep == lines[0] + (CRLF + rest);
    }
  }

  /** The text of an action is one packet and leaves nothing over. */
  lemma OnePacket(lines: seq<string>)
    requires lines != [] && WholeLines(lines)
    ensures Raws(JoinLines(lines) + PACKET_SEPARATOR) == [JoinLines(lines)]
    ensures Residual(JoinLines(lines) + PACKET_SEPARATOR) == ""
  {
    var text := JoinLines(lines) + PACKET_SEPARATOR;
    SeparatorAtEnd(lines);
    assert text[..|JoinLines(lines)|] == JoinLines(lines);
    assert text[|JoinLines(lines)| + 4..] == "";
    assert IndexOf("", PACKET_SEPARATOR) == -1;
  }

  lemma LinesStep(first: string, rest: string)
    requires Unbroken(first)
    ensures Lines(first + CRLF + rest) == [first] + Lines(rest)
  {
    var text := first + (CRLF + rest);
    assert text == first + CRLF + rest && text[..|first|] == first && text[|first| + 2..] == rest;
    assert IndexOf(CRLF + rest, CRLF) == 0 by {
      assert (CRLF + rest)[0..2] == CRLF;
    }
    SkipUnbroken(first, CRLF + rest, CRLF);
  }

  lemma {:induction false} LinesOfJoin(lines: seq<string>)
    requires lines != [] && WholeLines(lines)
    ensures Lines(JoinLines(lines)) == lines
    decreases |lines|
  {
    var first := lines[0];
    if |lines| == 1 {
      assert IndexOf("", CRLF) == -1;
      SkipUnbroken(first, "", CRLF);
      assert first + "" == first;
    } else {
      LinesOfJoin(lines[1..]);
      LinesStep(first, JoinLines(lines[1..]));
    }
  }

  // ------------------------------------------------------------------
  // The fields come back
  // ------------------------------------------------------------------

  ghost predicate CleanKey(key: string) {
    key != "" && Unbroken(key) && ':' !in key && Trim(key) == key
  }

  lemma {:induction false} ColonAfterKey(key: string, rest: string)
    requires ':' !in key
    ensures IndexOf(key + ":" + rest, ":") == |key|
  {
    var s := key + ":" + rest;
    if key == "" {
      assert s[0..1] == ":";
    } else {
      assert s[1..] == key[1..] + ":" + rest;
      ColonAfterKey(key[1..], rest);
      AtHead(s, ":");
    }
  }

  lemma FieldOf(p: Packet, key: string, value: string)
    requires CleanKey(key)
    ensures AddField(p, key + ": " + value) == Collected(p, key, Trim(value))
  {
    var line := key + ": " + value;
    assert line == key + ":" + (" " + value);
    ColonAfterKey(key, " " + value);
    assert line[..|key|] == key && line[|key| + 1..] == " " + value;
    assert (" " + value)[1..] == value;
    assert TrimStart(" " + value) == TrimStart(value);
  }

  /** The fields a list of parameters stands for. */
  function Fields(p: Packet, params: seq<Param>): Packet
    decreases |params|
  {
    if params == [] then p else Fields(Collected(p, params[0].key, Trim(Sanitised(params[0].value))), params[1..])
  }

  ghost predicate CleanParams(params: seq<Param>) {
    forall i :: 0 <= i < |params| ==> CleanKey(params[i].key)
  }

  ghost predicate DistinctKeys(params: seq<Param>) {
    forall i, j :: 0 <= i < j < |params| ==> params[i].key != params[j].key
  }

  lemma {:induction false} FieldsRead(p: Packet, params: seq<Param>)
    requires CleanParams(params)
    ensures AddFields(p, ParamLines(params)) == Fields(p, params)
    decreases |params|
  {
    if params != [] {
      var first, rest := params[0], params[1..];
      FieldOf(p, first.key, Sanitised(first.value));
      assert ParamLines(params)[1..] == ParamLines(rest);
      FieldsRead(Collected(p, first.key, Trim(Sanitised(first.value))), rest);
    }
  }

  /** The parameters add no field but their own. */
  lemma {:induction false} NoOtherFields(p: Packet, params: seq<Param>, key: string)
    requires forall i :: 0 <= i < |params| ==> params[i].key != key
    ensures key in Fields(p, params) <==> key in p
    ensures key in p ==> Fields(p, params)[key] == p[key]
    decreases |params|
  {
    if params != [] {
      NoOtherFields(Collected(p, params[0].key, Trim(Sanitised(params[0].value))), params[1..], key);
    }
  }

  /** With distinct keys each parameter's field is its sanitised, trimmed value. */
  lemma {:induction false} FieldsMean(p: Packet, params: seq<Param>, i: nat)
    requires DistinctKeys(params) && i < |params| && params[i].key !in p
    ensures params[i].key in Fields(p, params)
    ensures Fields(p, params)[params[i].key] == Trim(Sanitised(params[i].value))
    decreases |params|
  {
    var q := Collected(p, params[0].key, Trim(Sanitised(params[0].value)));
    if i == 0 {
      NoOtherFields(q, params[1..], params[0].key);
    } else {
      FieldsMean(q, params[1..], i - 1);
    }
  }

  /** The values some parameters give a key, joined by line breaks to what was there. */
  function Joined(first: Option<string>, params: seq<Param>, key: string): Option<string>
    decreases |params|
  {
    if params == [] then first
    else
      var value := Trim(Sanitised(params[0].value));
      var next := if params[0].key != key then first
        else if first.Some? then Some(first.value + "\n" + value) else Some(value);
      Joined(next, params[1..], key)
  }

  /** Every field is exactly the values given to its key, in order, one a line. */
  lemma {:induction false} FieldsCollect(p: Packet, params: seq<Param>, key: string)
    ensures var v := Joined(if key in p then Some(p[key]) else None, params, key);
      if v.Some? then key in Fields(p, params) && Fields(p, params)[key] == v.value else key !in Fields(p, params)
    decreases |params|
  {
    if params != [] {
      FieldsCollect(Collected(p, params[0].key, Trim(Sanitised(params[0].value))), params[1..], key);
    }
  }

  lemma {:induction false} ParamLinesWhole(params: seq<Param>)
    requires CleanParams(params)
    ensures WholeLines(ParamLines(params))
  {
    if params != [] {
      ParamLinesWhole(params[1..]);
      SanitisedIsUnbroken(params[0].value);
      var line := params[0].key + ": " + Sanitised(params[0].value);
      assert line != "" && Unbroken(line);
    }
  }

  /** An action is the text of its parameters, the first two being its name and id. */
  function AllParams(name: string, actionId: string, params: seq<Param>): seq<Param> {
    [Param("Action", name), Param("ActionID", actionId)] + params
  }

  lemma ActionLinesAre(name: string, actionId: string, params: seq<Param>)
    requires Unbroken(name) && Unbroken(actionId)
    ensures ParamLines(AllParams(name, actionId, params)) == ActionLines(name, actionId, params)
  {
    var all := AllParams(name, actionId, params);
    SanitisedIsUnbroken(name);
    SanitisedIsUnbroken(actionId);
    assert all[1..][1..] == params;
    assert "Action" + ": " + name == "Action: " + name;
    assert "ActionID" + ": " + actionId == "ActionID: " + actionId;
    assert ParamLines(all) == ["Action: " + name] + (["ActionID: " + actionId] + ParamLines(params));
  }

  lemma ParamsParseBack(params: seq<Param>)
    requires CleanParams(params) && params != []
    ensures var text := JoinLines(ParamLines(params));
      && Raws(text + PACKET_SEPARATOR) == [text] && Residual(text + PACKET_SEPARATOR) == ""
      && ParsePacket(text) == Fields(map[], params)
  {
    ParamLinesWhole(params);
    OnePacket(ParamLines(params));
    LinesOfJoin(ParamLines(params));
    FieldsRead(map[], params);
  }

  /**
   Whatever the parameter values, an action parses back as exactly one packet: its name, its id,
   and each parameter with its sanitised, trimmed value.
   */
  lemma DispatchedParsesBack(name: string, actionId: string, params: seq<Param>)
    requires Unbroken(name) && Unbroken(actionId)
    requires CleanParams(AllParams(name, actionId, params))
    ensures Residual(Payload(name, actionId, params)) == ""
    ensures Parsed(Raws(Payload(name, actionId, params))) == [Fields(map[], AllParams(name, actionId, params))]
  {
    ActionLinesAre(name, actionId, params);
    ParamsParseBack(AllParams(name, actionId, params));
    ActionTextIsKept(name, actionId, params);
    SingleParsed(JoinLines(ActionLines(name, actionId, params)));
  }

  lemma ActionTextIsKept(name: string, actionId: string, params: seq<Param>)
    ensures Trim(JoinLines(ActionLines(name, actionId, params))) != ""
  {
    var text := JoinLines(ActionLines(name, actionId, params));
    assert text[0] == 'A';
    TrimKeepsText(text);
  }

  lemma SingleParsed(raw: string)
    requires Trim(raw) != ""
    ensures Parsed([raw]) == [ParsePacket(raw)]
  {
    assert [raw][1..] == [];
    assert Collect(ParsedOne, [raw]) == ParsedOne(raw) + Collect(ParsedOne, []);
  }
}
