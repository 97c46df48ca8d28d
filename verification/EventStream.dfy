/** Splitting the notification stream into events while it arrives in chunks. */
module EventStream {
  const DATA := "data: "

  /** A separator starts at `i`. */
  predicate SeparatorAt(s: string, i: nat) {
    i + 1 < |s| && s[i] == '\n' && s[i + 1] == '\n'
  }

  /** The first separator at or after `i`; the length of `s` if there is none. */
  function NextSeparator(s: string, i: nat): (k: nat)
    requires i <= |s|
    ensures i <= k <= |s|
    ensures forall j :: i <= j < k ==> !SeparatorAt(s, j)
    ensures k < |s| ==> SeparatorAt(s, k)
    decreases |s| - i
  {
    if i == |s| then i else if SeparatorAt(s, i) then i else NextSeparator(s, i + 1)
  }

  /** The pieces of `s` between separators, cut from the left; there is always a last piece. */
  function SplitEvents(s: string): (pieces: seq<string>)
    ensures |pieces| > 0
    decreases |s|
  {
    var k := NextSeparator(s, 0);
    if k == |s| then [s] else [s[..k]] + SplitEvents(s[k + 2..])
  }

  /** The lines of `s`, split at every newline. */
  function Lines(s: string): (lines: seq<string>)
    ensures |lines| > 0
  {
    if s == "" then [""]
    else if s[0] == '\n' then [""] + Lines(s[1..])
    else
      var rest := Lines(s[1..]);
      [[s[0]] + rest[0]] + rest[1..]
  }

  predicate IsData(line: string) {
    DATA <= line
  }

  /** The payloads of the data lines among `lines`. */
  function DataOf(lines: seq<string>): seq<string> {
    if lines == [] then []
    else (if IsData(lines[0]) then [lines[0][|DATA|..]] else []) + DataOf(lines[1..])
  }

  function EventsData(events: seq<string>): seq<string> {
    if events == [] then [] else DataOf(Lines(events[0])) + EventsData(events[1..])
  }

  function Complete(pieces: seq<string>): seq<string>
    requires |pieces| > 0
  {
    pieces[..|pieces| - 1]
  }

  function Rest(pieces: seq<string>): string
    requires |pieces| > 0
  {
    pieces[|pieces| - 1]
  }

  /** What the whole text delivers when it is split once. */
  function Delivered(text: string): seq<string> {
    EventsData(Complete(SplitEvents(text)))
  }

  function Concat(chunks: seq<string>): string {
    if chunks == [] then "" else Concat(chunks[..|chunks| - 1]) + chunks[|chunks| - 1]
  }

  // ---- Chunk independence --------------------------------------------------------------------------------

  lemma SeparatorStays(x: string, y: string, i: nat)
    requires i + 1 < |x|
    ensures SeparatorAt(x + y, i) <==> SeparatorAt(x, i)
  {}

  lemma FirstSeparatorStays(x: string, y: string)
    requires NextSeparator(x, 0) < |x|
    ensures NextSeparator(x + y, 0) == NextSeparator(x, 0)
  {
    var k, n := NextSeparator(x, 0), NextSeparator(x + y, 0);
    SeparatorStays(x, y, k);
    if n < k { SeparatorStays(x, y, n); }
  }

  lemma SplitUnfold(s: string, k: nat)
    requires k == NextSeparator(s, 0) && k < |s|
    ensures SplitEvents(s) == [s[..k]] + SplitEvents(s[k + 2..])
  {}

  lemma OnePieceMore(head: string, tail: seq<string>, more: seq<string>)
    requires |tail| > 0
    ensures Complete([head] + tail) == [head] + Complete(tail) && Rest([head] + tail) == Rest(tail)
    ensures [head] + (Complete(tail) + more) == Complete([head] + tail) + more
  {}

  /** Splitting a longer text continues with the last piece of the shorter one. */
  lemma {:induction false} SplitMore(x: string, y: string)
    ensures SplitEvents(x + y) == Complete(SplitEvents(x)) + SplitEvents(Rest(SplitEvents(x)) + y)
    decreases |x|
  {
    var k := NextSeparator(x, 0);
    if k < |x| {
      FirstSeparatorStays(x, y);
      assert (x + y)[k + 2..] == x[k + 2..] + y && (x + y)[..k] == x[..k];
      SplitMore(x[k + 2..], y);
      SplitUnfold(x, k);
      SplitUnfold(x + y, k);
      hide SplitEvents, NextSeparator, Complete, Rest;
      var tail := SplitEvents(x[k + 2..]);
      OnePieceMore(x[..k], tail, SplitEvents(Rest(tail) + y));
    } else {
      assert SplitEvents(x) == [x];
      hide SplitEvents;
      assert Complete([x]) == [] && Rest([x]) == x;
      assert [] + SplitEvents(x + y) == SplitEvents(x + y);
    }
  }

  lemma {:induction false} EventsDataConcat(a: seq<string>, b: seq<string>)
    ensures EventsData(a + b) == EventsData(a) + EventsData(b)
  {
    if a == [] {
      assert a + b == b;
    } else {
      assert (a + b)[1..] == a[1..] + b;
      EventsDataConcat(a[1..], b);
    }
  }

  lemma {:induction false} DataOfConcat(a: seq<string>, b: seq<string>)
    ensures DataOf(a + b) == DataOf(a) + DataOf(b)
  {
    if a == [] {
      assert a + b == b;
    } else {
      assert (a + b)[1..] == a[1..] + b;
      DataOfConcat(a[1..], b);
    }
  }

  /** One chunk more: what it completes is what the longer text delivers in addition. */
  lemma ChunkStep(seen: string, chunk: string)
    ensures var buffer := Rest(SplitEvents(seen));
      && Rest(SplitEvents(seen + chunk)) == Rest(SplitEvents(buffer + chunk))
      && Delivered(seen + chunk) == Delivered(seen) + EventsData(Complete(SplitEvents(buffer + chunk)))
  {
    var before, after := SplitEvents(seen), SplitEvents(Rest(SplitEvents(seen)) + chunk);
    SplitMore(seen, chunk);
    assert Complete(Complete(before) + after) == Complete(before) + Complete(after);
    EventsDataConcat(Complete(before), Complete(after));
  }

  /** The reading loop. However the text is cut into chunks, it delivers what the whole text delivers. */
  method ReadStream(chunks: seq<string>) returns (delivered: seq<string>)
    ensures delivered == Delivered(Concat(chunks))
  {
    hide SplitEvents, EventsData, Lines, DataOf;
    delivered := [];
    var buffer := "";
    var i := 0;
    EmptyText();
    assert chunks[..0] == [];
    while i < |chunks|
      invariant 0 <= i <= |chunks|
      invariant buffer == Rest(SplitEvents(Concat(chunks[..i]))) && delivered == Delivered(Concat(chunks[..i]))
    {
      ChunkStep(Concat(chunks[..i]), chunks[i]);
      assert chunks[..i + 1][..i] == chunks[..i];
      buffer := buffer + chunks[i];
      var pieces := SplitEvents(buffer);
      buffer := Rest(pieces);
      var data := DeliverEvents(Complete(pieces));
      delivered := delivered + data;
      i := i + 1;
    }
    assert chunks[..i] == chunks;
  }

  lemma EmptyText()
    ensures SplitEvents("") == [""] && Delivered("") == []
  {}

  /** Delivers the data lines of complete events. */
  method DeliverEvents(events: seq<string>) returns (data: seq<string>)
    ensures data == EventsData(events)
  {
    hide Lines, DataOf;
    data := [];
    var e := 0;
    assert events[..0] == [];
    while e < |events|
      invariant 0 <= e <= |events| && data == EventsData(events[..e])
    {
      var more := DeliverLines(Lines(events[e]));
      data := data + more;
      assert events[..e + 1] == events[..e] + [events[e]];
      EventsDataConcat(events[..e], [events[e]]);
      e := e + 1;
    }
    assert events[..e] == events;
  }

  method DeliverLines(lines: seq<string>) returns (data: seq<string>)
    ensures data == DataOf(lines)
  {
    data := [];
    var l := 0;
    assert lines[..0] == [];
    while l < |lines|
      invariant 0 <= l <= |lines| && data == DataOf(lines[..l])
    {
      assert lines[..l + 1] == lines[..l] + [lines[l]];
      DataOfConcat(lines[..l], [lines[l]]);
      if IsData(lines[l]) { data := data + [lines[l][|DATA|..]]; }
      l := l + 1;
    }
    assert lines[..l] == lines;
  }

  // ---- What is a data line ----------------------------------------------------------------------------------

  ghost predicate OneLine(x: string) {
    forall i :: 0 <= i < |x| ==> x[i] != '\n'
  }

  lemma {:induction false} LinesOfOne(x: string)
    requires OneLine(x)
    ensures Lines(x) == [x]
  {
    if x != "" {
      LinesOfOne(x[1..]);
      assert [x[0]] + x[1..] == x;
    }
  }

  /** One line and a blank one: the text splits into that line and nothing more. */
  lemma SplitOne(line: string)
    requires OneLine(line)
    ensures Delivered(line + "\n\n") == DataOf([line])
  {
    var text := line + "\n\n";
    var k := NextSeparator(text, 0);
    assert SeparatorAt(text, |line|) && forall j :: 0 <= j < |line| ==> !SeparatorAt(text, j);
    assert k == |line| && text[..k] == line && text[k + 2..] == "";
    SplitUnfold(text, k);
    EmptyText();
    OnePieceMore(line, [""], []);
    assert Complete([""]) == [] && [line] + [] == [line];
    assert Complete(SplitEvents(text)) == [line];
    LinesOfOne(line);
    assert EventsData([line]) == DataOf([line]) + EventsData([]);
  }

  /** A notification arrives: the text `data: x` and a blank line deliver `x`, whatever `x` is. */
  lemma NotificationArrives(x: string)
    requires OneLine(x)
    ensures Delivered("data: " + x + "\n\n") == [x]
  {
    var line := "data: " + x;
    assert OneLine(line) && line[6..] == x && line[..6] == "data: ";
    SplitOne(line);
    assert line + "\n\n" == "data: " + x + "\n\n";
  }

  /** A line with any other beginning delivers nothing. */
  lemma OtherLine(line: string)
    requires OneLine(line) && (|line| < 6 || line[..6] != "data: ")
    ensures Delivered(line + "\n\n") == []
  {
    SplitOne(line);
    assert IsData(line) <==> |line| >= 6 && line[..6] == "data: ";
  }

  // ---- The line-by-line reading of the standard ------------------------------------------------------------

  /** The place of the first colon; the length of the line if there is none. */
  function Colon(line: string): (k: nat)
    ensures k <= |line| && (forall i :: 0 <= i < k ==> line[i] != ':') && (k < |line| ==> line[k] == ':')
  {
    if line == "" || line[0] == ':' then 0 else Colon(line[1..]) + 1
  }

  /** Section 9.2.6 of the WHATWG HTML standard: the field name is what comes before the first colon, ... */
  function FieldName(line: string): string {
    line[..Colon(line)]
  }

  /** ... the value what comes after it, without one leading space. */
  function FieldValue(line: string): string {
    var k := Colon(line);
    if k == |line| then "" else if k + 1 < |line| && line[k + 1] == ' ' then line[k + 2..] else line[k + 1..]
  }

  /** The values of the data fields. */
  function DataFields(lines: seq<string>): seq<string> {
    if lines == [] then []
    else (if FieldName(lines[0]) == "data" then [FieldValue(lines[0])] else []) + DataFields(lines[1..])
  }

  /** The lines of dispatched events, for newline line ends: a blank line dispatches the lines collected so far;
      what is not followed by a blank line is discarded. */
  function Finished(lines: seq<string>, pending: seq<string>): seq<string> {
    if |lines| <= 1 then []  // the last piece is not terminated by a newline
    else if lines[0] == "" then pending + Finished(lines[1..], [])
    else Finished(lines[1..], pending + [lines[0]])
  }

  /** What the standard delivers. */
  function Standard(text: string): seq<string> {
    DataFields(Finished(Lines(text), []))
  }

  /** A data field written with a space behind the colon. */
  ghost predicate Spaced(line: string) {
    FieldName(line) == "data" ==> |line| >= 6 && line[..6] == "data: "
  }

  lemma FieldOfData(line: string)
    requires |line| >= 6 && line[..6] == "data: "
    ensures FieldName(line) == "data" && FieldValue(line) == line[6..]
  {
    assert line[..6] == "data: " && line[4] == ':' && line[5] == ' ';
    assert line[0] == line[..6][0] && line[1] == line[..6][1] && line[2] == line[..6][2] && line[3] == line[..6][3];
    assert Colon(line) == 4;
  }

  lemma {:induction false} FieldsMore(lines: seq<string>)
    ensures |DataOf(lines)| <= |DataFields(lines)|
    ensures |DataOf(lines)| == |DataFields(lines)| <==> forall i :: 0 <= i < |lines| ==> Spaced(lines[i])
    ensures (forall i :: 0 <= i < |lines| ==> Spaced(lines[i])) ==> DataOf(lines) == DataFields(lines)
  {
    if lines != [] {
      var line, rest := lines[0], lines[1..];
      FieldsMore(rest);
      assert lines == [line] + rest;
      assert (forall i :: 0 <= i < |lines| ==> Spaced(lines[i])) <==>
        Spaced(line) && forall i :: 0 <= i < |rest| ==> Spaced(rest[i]);
      if |line| >= 6 && line[..6] == "data: " { FieldOfData(line); }
      assert IsData(line) <==> |line| >= 6 && line[..6] == "data: ";
    }
  }

  /** The reading of the standard with the source's notion of a data line. */
  function Dispatched(lines: seq<string>, pending: seq<string>): seq<string> {
    if |lines| <= 1 then []
    else if lines[0] == "" then pending + Dispatched(lines[1..], [])
    else Dispatched(lines[1..], pending + DataOf([lines[0]]))
  }

  lemma {:induction false} DispatchedFinished(lines: seq<string>, pending: seq<string>)
    ensures Dispatched(lines, DataOf(pending)) == DataOf(Finished(lines, pending))
  {
    if |lines| > 1 {
      if lines[0] == "" {
        DispatchedFinished(lines[1..], []);
        DataOfConcat(pending, Finished(lines[1..], []));
      } else {
        DispatchedFinished(lines[1..], pending + [lines[0]]);
        DataOfConcat(pending, [lines[0]]);
      }
    }
  }

  lemma {:induction false} LinesConcat(a: string, b: string)
    ensures Lines(a + "\n" + b) == Lines(a) + Lines(b)
  {
    if a == "" {
      assert a + "\n" + b == "\n" + b && ("\n" + b)[1..] == b;
    } else {
      assert (a + "\n" + b)[1..] == a[1..] + "\n" + b;
      LinesConcat(a[1..], b);
    }
  }

  /** The lines with newlines between them. */
  ghost function Joined(lines: seq<string>): string
    requires |lines| > 0
  {
    if |lines| == 1 then lines[0] else lines[0] + "\n" + Joined(lines[1..])
  }

  lemma {:induction false} LinesJoined(s: string)
    ensures Joined(Lines(s)) == s && forall i :: 0 <= i < |Lines(s)| ==> OneLine(Lines(s)[i])
  {
    if s != "" {
      LinesJoined(s[1..]);
      var rest := Lines(s[1..]);
      assert s == [s[0]] + s[1..];
      if s[0] == '\n' {
        assert ([""] + rest)[1..] == rest;
      } else if |rest| > 1 {
        assert ([[s[0]] + rest[0]] + rest[1..])[1..] == rest[1..];
        assert [s[0]] + (rest[0] + "\n" + Joined(rest[1..])) == [s[0]] + rest[0] + "\n" + Joined(rest[1..]);
      }
    }
  }

  /** Nothing else is a reading in lines: only `Lines(s)` has no newline inside a line and gives `s` when joined. */
  lemma {:induction false} LinesExact(s: string, lines: seq<string>)
    requires |lines| > 0
    ensures lines == Lines(s) <==> Joined(lines) == s && forall i :: 0 <= i < |lines| ==> OneLine(lines[i])
    decreases |lines|
  {
    LinesJoined(s);
    if Joined(lines) == s && forall i :: 0 <= i < |lines| ==> OneLine(lines[i]) {
      LinesOfOne(lines[0]);
      if |lines| > 1 {
        LinesConcat(lines[0], Joined(lines[1..]));
        LinesExact(Joined(lines[1..]), lines[1..]);
        assert lines == [lines[0]] + lines[1..];
      }
    }
  }

  /** No separator inside: only the first line can be blank. */
  lemma {:induction false} BlankOnlyFirst(s: string)
    requires forall i: nat :: !SeparatorAt(s, i)
    ensures forall i :: 1 <= i < |Lines(s)| - 1 ==> Lines(s)[i] != ""
    ensures s != "" && s[0] != '\n' && |Lines(s)| > 1 ==> Lines(s)[0] != ""
  {
    if s != "" {
      forall i: nat ensures !SeparatorAt(s[1..], i) { assert SeparatorAt(s[1..], i) ==> SeparatorAt(s, i + 1); }
      BlankOnlyFirst(s[1..]);
      if s[0] == '\n' {
        assert !SeparatorAt(s, 0);
        assert |s| > 1 ==> s[1..][0] != '\n';
      }
    }
  }

  /** Lines without a blank one only add to what is pending. */
  lemma {:induction false} Collect(lines: seq<string>, more: seq<string>, pending: seq<string>)
    requires more != [] && forall i :: 0 <= i < |lines| ==> lines[i] != ""
    ensures Dispatched(lines + more, pending) == Dispatched(more, pending + DataOf(lines))
  {
    if lines == [] {
      assert lines + more == more;
      assert pending + DataOf(lines) == pending;
    } else {
      assert (lines + more)[1..] == lines[1..] + more;
      Collect(lines[1..], more, pending + DataOf([lines[0]]));
      assert [lines[0]] + lines[1..] == lines;
      DataOfConcat([lines[0]], lines[1..]);
      assert (pending + DataOf([lines[0]])) + DataOf(lines[1..]) == pending + DataOf(lines);
    }
  }

  /** Nothing is dispatched from lines in which at most the first and the unterminated last are blank. */
  lemma {:induction false} NothingDispatched(lines: seq<string>, pending: seq<string>)
    requires forall i :: 0 <= i < |lines| - 1 ==> lines[i] != ""
    ensures Dispatched(lines, pending) == []
  {
    if |lines| > 1 { NothingDispatched(lines[1..], pending + DataOf([lines[0]])); }
  }

  lemma {:induction false} LastLine(s: string)
    requires s != "" && s[|s| - 1] != '\n'
    ensures Lines(s)[|Lines(s)| - 1] != ""
  {
    if |s| > 1 {
      LastLine(s[1..]);
      assert s[1..][|s[1..]| - 1] == s[|s| - 1];
    }
  }

  /** The lines of an event: none is blank, except that the event may begin with a newline. */
  lemma EventLines(e: string)
    requires forall i: nat :: !SeparatorAt(e + "\n", i)
    ensures forall i :: 1 <= i < |Lines(e)| ==> Lines(e)[i] != ""
    ensures |Lines(e)| > 1 || e == "" || Lines(e)[0] != ""
  {
    forall i: nat ensures !SeparatorAt(e, i) { if SeparatorAt(e, i) { assert SeparatorAt(e + "\n", i); } }
    BlankOnlyFirst(e);
    if e != "" {
      assert !SeparatorAt(e + "\n", |e| - 1);
      assert (e + "\n")[|e| - 1] == e[|e| - 1] && (e + "\n")[|e|] == '\n';
      LastLine(e);
    }
  }

  lemma EventDispatched(e: string, t: string)
    requires forall i: nat :: !SeparatorAt(e + "\n", i)
    ensures Dispatched(Lines(e + "\n\n" + t), []) == DataOf(Lines(e)) + Dispatched(Lines(t), [])
  {
    EventLines(e);
    LinesConcat(e, "\n" + t);
    LinesConcat("", t);
    assert e + "\n" + ("\n" + t) == e + "\n\n" + t && "" + "\n" + t == "\n" + t;
    var lines, more := Lines(e), [""] + Lines(t);
    assert Lines("") + Lines(t) == more && more[1..] == Lines(t);
    assert Lines(e + "\n\n" + t) == lines + more;
    hide Lines, SeparatorAt;
    DispatchEvent(lines, Lines(t));
  }

  lemma DispatchEvent(lines: seq<string>, rest: seq<string>)
    requires |lines| > 0 && |rest| > 0 && forall i :: 1 <= i < |lines| ==> lines[i] != ""
    ensures Dispatched(lines + ([""] + rest), []) == DataOf(lines) + Dispatched(rest, [])
  {
    var more := [""] + rest;
    assert more[1..] == rest;
    if lines[0] == "" {
      assert (lines + more)[1..] == lines[1..] + more;
      assert [] + Dispatched(lines[1..] + more, []) == Dispatched(lines[1..] + more, []);
      Collect(lines[1..], more, []);
      assert DataOf(lines) == [] + DataOf(lines[1..]);
    } else {
      Collect(lines, more, []);
    }
    assert [] + DataOf(lines) == DataOf(lines);
  }

  /** Splitting at blank lines delivers what the standard delivers, exactly when every data field of a dispatched
      event has a space behind its colon. */
  lemma MatchesStandard(text: string)
    ensures Delivered(text) == Standard(text) <==>
      var lines := Finished(Lines(text), []); forall i :: 0 <= i < |lines| ==> Spaced(lines[i])
  {
    hide DataOf, DataFields, Lines, Finished, Spaced;
    SplitDispatched(text);
    EmptyData();
    DispatchedFinished(Lines(text), []);
    FieldsMore(Finished(Lines(text), []));
  }

  lemma EmptyData()
    ensures DataOf([]) == []
  {}

  /** What the standard reads in one line and a blank one. */
  lemma StandardOne(line: string)
    requires OneLine(line) && line != ""
    ensures Standard(line + "\n\n") == DataFields([line])
  {
    LinesConcat(line, "\n");
    LinesConcat("", "");
    LinesOfOne(line);
    LinesOfOne("");
    assert line + "\n" + "\n" == line + "\n\n" && "" + "\n" + "" == "\n";
    hide Lines;
    assert Lines(line + "\n\n") == [line, "", ""] && [line, "", ""][1..] == ["", ""];
    assert Finished(["", ""], [line]) == [line] + Finished([""], []);
    assert [] + [line] == [line];
  }

  /** Without the space the standard reads a value where the source sees no data line. */
  lemma MissingSpace(x: string)
    requires OneLine(x) && (x == "" || x[0] != ' ')
    ensures Delivered("data:" + x + "\n\n") == [] && Standard("data:" + x + "\n\n") == [x]
  {
    hide Delivered, Standard;
    var line := "data:" + x;
    assert OneLine(line) && line[4] == ':' && line[..4] == "data" && line[5..] == x;
    OtherLine(line) by { assert |line| >= 6 ==> line[..6][5] == x[0] && "data: "[5] == ' '; }
    StandardOne(line);
    assert Colon(line) == 4 by { assert line[0] == 'd' && line[1] == 'a' && line[2] == 't' && line[3] == 'a'; }
    assert DataFields([line]) == [FieldValue(line)] + DataFields([]);
    assert line + "\n\n" == "data:" + x + "\n\n";
  }

  /** Splitting at blank lines delivers exactly what reading line by line dispatches. */
  lemma {:induction false} SplitDispatched(text: string)
    ensures Delivered(text) == Dispatched(Lines(text), [])
    decreases |text|
  {
    var k := NextSeparator(text, 0);
    if k == |text| {
      BlankOnlyFirst(text);
      var lines := Lines(text);
      if |lines| > 1 && lines[0] == "" { NothingDispatched(lines[1..], []); } else { NothingDispatched(lines, []); }
    } else {
      var e, t := text[..k], text[k + 2..];
      assert text == e + "\n\n" + t;
      forall i: nat ensures !SeparatorAt(e + "\n", i) { if SeparatorAt(e + "\n", i) { assert SeparatorAt(text, i); } }
      EventDispatched(e, t);
      SplitDispatched(t);
      SplitUnfold(text, k);
      OnePieceMore(e, SplitEvents(t), []);
      assert ([e] + Complete(SplitEvents(t)))[1..] == Complete(SplitEvents(t));
    }
  }
}
