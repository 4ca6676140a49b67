/**
 Splitting a text into messages within a limit of UTF-16 code units, and keeping
 code fences balanced in each of them.
 */
module Chunking {
  import opened Options

  // --- UTF-16 ---

  function Width(c: char): nat {
    if c as int > 0xFFFF then 2 else 1
  }

  function Utf16Units(s: string): nat {
    if s == "" then 0 else Utf16Units(s[..|s| - 1]) + Width(s[|s| - 1])
  }

  lemma {:induction false} UnitsOfConcat(a: string, b: string)
    ensures Utf16Units(a + b) == Utf16Units(a) + Utf16Units(b)
  {
    if b == "" {
      assert a + b == a;
    } else {
      assert (a + b)[..|a + b| - 1] == a + b[..|b| - 1];
      UnitsOfConcat(a, b[..|b| - 1]);
    }
  }

  // --- one chunk ---

  predicate IsBreak(c: char) {
    c == '\n' || c == ' ' || c == '\t'
  }

  /** By their codes: a character beyond the basic plane takes a surrogate pair, and a
      text may be cut after a tab, a line feed or a space. */
  lemma CharacterExactly(c: char)
    ensures Width(c) == if c as int >= 65536 then 2 else 1
    ensures IsBreak(c) <==> c as int in {9, 10, 32}
  {
  }

  // The longest prefix that fits has n characters.
  predicate LongestFit(s: string, limit: int, n: nat) {
    n <= |s| && (n > 0 ==> Utf16Units(s[..n]) <= limit) && (n < |s| ==> Utf16Units(s[..n + 1]) > limit)
  }

  // The last break among the first n characters ends at b; 0 if there is none.
  predicate LastBreak(s: string, n: nat, b: nat)
    requires n <= |s|
  {
    b <= n && (b > 0 ==> IsBreak(s[b - 1])) && forall i | b <= i < n :: !IsBreak(s[i])
  }

  // Where a chunk ends: at the last break if that keeps half of what fits.
  ghost predicate ChunkEnd(s: string, limit: int, end: nat) {
    exists fit: nat, b: nat :: LongestFit(s, limit, fit) && LastBreak(s, fit, b)
                               && end == if fit < |s| && b > 0 && b >= fit / 2 then b else fit
  }

  /** The first chunk of a text and the rest. */
  method TakeUnits(s: string, limit: int) returns (chunk: string, rest: string)
    ensures chunk + rest == s && ChunkEnd(s, limit, |chunk|)
    ensures chunk != "" ==> Utf16Units(chunk) <= limit
    ensures chunk == "" <==> s == "" || Width(s[0]) > limit
  {
    hide Utf16Units;
    NoUnits();
    var used, lastBreak, end := 0, 0, 0;
    var index := 0;
    while index < |s| && used + Width(s[index]) <= limit
      invariant index == end <= |s| && used == Utf16Units(s[..end]) && (end > 0 ==> used <= limit)
      invariant LastBreak(s, end, lastBreak)
    {
      UnitsSnoc(s, index);
      used := used + Width(s[index]);
      end := index + 1;
      if IsBreak(s[index]) { lastBreak := end; }
      index := index + 1;
    }
    if end < |s| { UnitsSnoc(s, end); }
    assert LongestFit(s, limit, end);
    FirstFits(s, limit, end);
    ghost var fit := end;
    if end == |s| {
      assert s[..end] == s;
      return s, "";
    }
    if lastBreak > 0 && lastBreak >= end / 2 {
      PrefixFits(s, lastBreak, end);
      end := lastBreak;
    }
    assert ChunkEnd(s, limit, end);
    return s[..end], s[end..];
  }

  lemma UnitsSnoc(s: string, i: nat)
    requires i < |s|
    ensures Utf16Units(s[..i + 1]) == Utf16Units(s[..i]) + Width(s[i])
  {
    assert s[..i + 1][..i] == s[..i];
  }

  lemma NoUnits()
    ensures Utf16Units("") == 0
  {
  }

  lemma FirstFits(s: string, limit: int, fit: nat)
    requires LongestFit(s, limit, fit)
    ensures fit == 0 <==> s == "" || Width(s[0]) > limit
  {
    if s != "" {
      assert s[..1] == [s[0]] && Utf16Units(s[..1]) == Width(s[0]) by { assert s[..1][..0] == ""; }
      if fit > 0 { PrefixFits(s, 1, fit); }
    }
  }

  lemma PrefixFits(s: string, a: nat, b: nat)
    requires a <= b <= |s|
    ensures Utf16Units(s[..a]) <= Utf16Units(s[..b])
  {
    assert s[..b] == s[..a] + s[a..b];
    UnitsOfConcat(s[..a], s[a..b]);
  }

  // --- all chunks ---

  function Concat(chunks: seq<string>): string {
    if chunks == [] then "" else Concat(chunks[..|chunks| - 1]) + chunks[|chunks| - 1]
  }

  // Every chunk holds something and fits.
  predicate Chunked(chunks: seq<string>, limit: int) {
    forall chunk <- chunks :: chunk != "" && Utf16Units(chunk) <= limit
  }

  // A limit of one unit has no room for a character above U+FFFF.
  predicate TooSmall(s: string, limit: int) {
    limit < 1 || (limit == 1 && exists c <- s :: Width(c) == 2)
  }

  method Split(s: string, limit: int) returns (chunks: Option<seq<string>>)
    requires limit >= 1
    ensures chunks.Some? <==> !TooSmall(s, limit)
    ensures chunks.Some? ==> Concat(chunks.value) == s && Chunked(chunks.value, limit)
  {
    SingleUnits("");
    NoChunks(limit);
    hide Utf16Units, ChunkEnd, Narrow, Concat, Chunked, TooSmall, Width;
    var result: seq<string>, remaining := [], s;
    while remaining != ""
      invariant Concat(result) + remaining == s && Chunked(result, limit)
      invariant limit == 1 ==> Narrow(Concat(result))
      decreases |remaining|
    {
      var chunk, rest := TakeUnits(remaining, limit);
      if chunk == "" {
        NoRoom(Concat(result), remaining, limit);
        return None;
      }
      AppendChunk(result, chunk, limit);
      assert Concat(result) + chunk + rest == Concat(result) + remaining;
      result := result + [chunk];
      remaining := rest;
    }
    assert Concat(result) == s;
    EnoughRoom(s, limit);
    return Some(result);
  }

  lemma AppendChunk(chunks: seq<string>, chunk: string, limit: int)
    requires Chunked(chunks, limit) && chunk != "" && Utf16Units(chunk) <= limit
    ensures Concat(chunks + [chunk]) == Concat(chunks) + chunk && Chunked(chunks + [chunk], limit)
    ensures limit == 1 && Narrow(Concat(chunks)) ==> Narrow(Concat(chunks + [chunk]))
  {
    assert (chunks + [chunk])[..|chunks|] == chunks;
    if limit == 1 { SingleUnits(chunk); }
  }

  predicate Narrow(s: string) {
    forall c <- s :: Width(c) == 1
  }

  lemma NoChunks(limit: int)
    ensures Concat([]) == "" && Chunked([], limit)
  {
  }

  lemma NoRoom(before: string, rest: string, limit: int)
    requires limit >= 1 && rest != "" && Width(rest[0]) > limit
    ensures TooSmall(before + rest, limit)
  {
    assert (before + rest)[|before|] == rest[0];
  }

  lemma EnoughRoom(s: string, limit: int)
    requires limit >= 1 && (limit == 1 ==> Narrow(s))
    ensures !TooSmall(s, limit)
  {
  }

  lemma {:induction false} SingleUnits(s: string)
    requires Utf16Units(s) <= 1
    ensures Narrow(s)
  {
    if s != "" {
      SingleUnits(s[..|s| - 1]);
      assert s == s[..|s| - 1] + [s[|s| - 1]];
      UnitsOfConcat(s[..|s| - 1], [s[|s| - 1]]);
    }
  }

  // --- code fences ---

  const FENCE := "```"
  const OPENING := "```\n"
  const CLOSING := "\n```"

  // Occurrences from left to right, not overlapping.
  function Fences(s: string): nat {
    if |s| < 3 then 0
    else if s[..3] == FENCE then 1 + Fences(s[3..])
    else Fences(s[1..])
  }

  /** A line break separates fences: none is formed across it. */
  lemma {:induction false} FencesAcrossLine(a: string, b: string)
    ensures Fences(a + "\n" + b) == Fences(a) + Fences(b)
    decreases |a|
  {
    var s := a + "\n" + b;
    if |a| >= 3 && a[..3] == FENCE {
      assert s[..3] == a[..3] && s[3..] == a[3..] + "\n" + b;
      FencesAcrossLine(a[3..], b);
    } else if a == "" {
      assert s[0] == '\n' && s[1..] == b;
    } else {
      assert |s| >= 3 ==> s[..3] != FENCE by {
        if |a| == 1 { assert s[1] == '\n'; }
        if |a| == 2 { assert s[2] == '\n'; }
        if |a| >= 3 { assert s[..3] == a[..3]; }
      }
      assert s[1..] == a[1..] + "\n" + b;
      FencesAcrossLine(a[1..], b);
    }
  }

  // A fence is open after the first n chunks.
  predicate Open(chunks: seq<string>, n: nat)
    requires n <= |chunks|
  {
    n > 0 && (Open(chunks, n - 1) != (Fences(chunks[n - 1]) % 2 == 1))
  }

  // Chunk i with the fences it needs: reopened at its start, closed at its end.
  function Repaired(chunks: seq<string>, i: nat): string
    requires i < |chunks|
  {
    (if Open(chunks, i) then OPENING else "") + chunks[i] + (if Open(chunks, i + 1) && i + 1 < |chunks| then CLOSING else "")
  }

  /** Every repaired chunk but the last holds an even number of fences. */
  lemma RepairedIsBalanced(chunks: seq<string>, i: nat)
    requires i < |chunks|
    ensures Fences(Repaired(chunks, i)) ==
            (if Open(chunks, i) then 1 else 0) + Fences(chunks[i]) + (if Open(chunks, i + 1) && i + 1 < |chunks| then 1 else 0)
    ensures i + 1 < |chunks| ==> Fences(Repaired(chunks, i)) % 2 == 0
  {
    hide Fences, Open;
    var closing := Open(chunks, i + 1) && i + 1 < |chunks|;
    var tail := chunks[i] + if closing then CLOSING else "";
    assert closing || tail == chunks[i];
    WithClosing(chunks[i]);
    WithOpening(tail);
    assert Repaired(chunks, i) == if Open(chunks, i) then OPENING + tail else tail;
    NextOpen(chunks, i);
  }

  lemma NextOpen(chunks: seq<string>, i: nat)
    requires i < |chunks|
    ensures Open(chunks, i + 1) == (Open(chunks, i) != (Fences(chunks[i]) % 2 == 1))
  {
  }

  lemma OneFence()
    ensures Fences(FENCE) == 1
  {
    assert FENCE[3..] == "";
  }

  lemma WithClosing(a: string)
    ensures Fences(a + CLOSING) == Fences(a) + 1
  {
    hide Fences;
    assert a + CLOSING == a + "\n" + FENCE;
    FencesAcrossLine(a, FENCE);
    OneFence();
  }

  lemma WithOpening(b: string)
    ensures Fences(OPENING + b) == Fences(b) + 1
  {
    hide Fences;
    assert OPENING + b == FENCE + "\n" + b;
    FencesAcrossLine(FENCE, b);
    OneFence();
  }

  predicate CanRepair(chunks: seq<string>, limit: int) {
    && |chunks| >= 2 && Fences(Concat(chunks)) > 0
    && forall i: nat | i < |chunks| :: Repaired(chunks, i) == chunks[i] || Utf16Units(Repaired(chunks, i)) <= limit
  }

  /** Repair the fences of all chunks if every repaired chunk still fits, and of
      none otherwise. */
  method PreserveCodeFences(chunks: seq<string>, limit: int) returns (result: seq<string>)
    ensures |result| == |chunks|
    ensures CanRepair(chunks, limit) ==> forall i: nat | i < |chunks| :: result[i] == Repaired(chunks, i)
    ensures !CanRepair(chunks, limit) ==> result == chunks
  {
    if |chunks| < 2 || Fences(Concat(chunks)) == 0 { return chunks; }
    result := [];
    var inFence := false;
    for index := 0 to |chunks|
      invariant |result| == index && inFence == Open(chunks, index)
      invariant forall i: nat | i < index :: result[i] == Repaired(chunks, i) && (result[i] == chunks[i] || Utf16Units(result[i]) <= limit)
    {
      var chunk := chunks[index];
      if inFence {
        if Utf16Units(OPENING + chunk) > limit {
          TooLong(chunks, index, limit);
          return chunks;
        }
        chunk := OPENING + chunk;
      }
      inFence := inFence != (Fences(chunks[index]) % 2 == 1);
      if inFence && index < |chunks| - 1 {
        if Utf16Units(chunk + CLOSING) > limit {
          assert chunk + CLOSING == Repaired(chunks, index);
          return chunks;
        }
        chunk := chunk + CLOSING;
      }
      assert chunk == Repaired(chunks, index);
      result := result + [chunk];
    }
  }

  lemma TooLong(chunks: seq<string>, i: nat, limit: int)
    requires i < |chunks| && Open(chunks, i) && Utf16Units(OPENING + chunks[i]) > limit
    ensures Utf16Units(Repaired(chunks, i)) > limit
  {
    var closing := if Open(chunks, i + 1) && i + 1 < |chunks| then CLOSING else "";
    UnitsOfConcat(OPENING + chunks[i], closing);
  }

  // --- the whole text ---

  /** Chunk a text: refused exactly when the limit has no room for some character.
      Otherwise every chunk fits, and taking away the fences that were added gives
      back pieces that make up the text. */
  method ChunkText(s: string, limit: int) returns (result: Option<seq<string>>, ghost pieces: seq<string>)
    ensures result.Some? <==> !TooSmall(s, limit)
    ensures result.Some? ==> Concat(pieces) == s && |pieces| == |result.value| >= 1 && (s != "" ==> Chunked(pieces, limit))
    ensures result.Some? ==> forall chunk <- result.value :: Utf16Units(chunk) <= limit
    ensures result.Some? && !CanRepair(pieces, limit) ==> result.value == pieces
    ensures result.Some? && CanRepair(pieces, limit) ==>
              forall i: nat | i < |pieces| ::
                result.value[i] == Repaired(pieces, i) && (i + 1 < |pieces| ==> Fences(result.value[i]) % 2 == 0)
  {
    pieces := [];
    if limit < 1 { return None, []; }
    if s == "" {
      assert [""][..0] == [] && Concat([""]) == "";
      return Some([""]), [""];
    }
    var chunks := Split(s, limit);
    if chunks.None? { return None, []; }
    pieces := chunks.value;
    var repaired := PreserveCodeFences(chunks.value, limit);
    forall i: nat | i < |pieces| ensures i + 1 < |pieces| ==> Fences(Repaired(pieces, i)) % 2 == 0 {
      RepairedIsBalanced(pieces, i);
    }
    return Some(repaired), pieces;
  }

  // --- messages ---

  // The fields that every chunk of a message shares.
  datatype Envelope = Envelope(platform: string, channel: string, thread: Option<string>, operation: string)

  datatype OutboundMessage = OutboundMessage(key: string, text: string, chunkIndex: nat, chunkCount: nat, envelope: Envelope)

  function Digit(n: nat): char
    requires n < 10
  {
    "0123456789"[n]
  }

  function Decimal(n: nat): (s: string)
    ensures s != ""
  {
    if n < 10 then [Digit(n)] else Decimal(n / 10) + [Digit(n % 10)]
  }

  lemma {:induction false} DecimalIsInjective(a: nat, b: nat)
    requires Decimal(a) == Decimal(b)
    ensures a == b
  {
    var s, t := Decimal(a), Decimal(b);
    assert s[|s| - 1] == Digit(a % 10) && t[|t| - 1] == Digit(b % 10);
    if a >= 10 && b >= 10 {
      assert s[..|s| - 1] == Decimal(a / 10) && t[..|t| - 1] == Decimal(b / 10);
      DecimalIsInjective(a / 10, b / 10);
    }
  }

  function ChunkKey(key: string, index: nat): string {
    key + ":chunk:" + Decimal(index)
  }

  /** The chunks of one message have different keys. */
  lemma ChunkKeysDiffer(key: string, i: nat, j: nat)
    requires ChunkKey(key, i) == ChunkKey(key, j)
    ensures i == j
  {
    var p := key + ":chunk:";
    assert ChunkKey(key, i)[|p|..] == Decimal(i) && ChunkKey(key, j)[|p|..] == Decimal(j);
    DecimalIsInjective(i, j);
  }

  function ChunkMessage(message: OutboundMessage, index: nat, count: nat, text: string): OutboundMessage {
    message.(key := ChunkKey(message.key, index), text := text, chunkIndex := index, chunkCount := count)
  }

  // The messages that stand for one message whose text was split into pieces.
  predicate SentAs(message: OutboundMessage, limit: int, result: seq<OutboundMessage>, pieces: seq<string>) {
    && result != [] && |result| == |pieces| && Concat(pieces) == message.text
    && (forall m <- result :: Utf16Units(m.text) <= limit && m.envelope == message.envelope)
    && (|pieces| == 1 ==> result == [message])
    && (|pieces| > 1 ==>
          forall i: nat | i < |pieces| ::
            result[i] == ChunkMessage(message, i, |pieces|, if CanRepair(pieces, limit) then Repaired(pieces, i) else pieces[i]))
  }

  /** A message that fits is sent as it is; a longer one as its numbered chunks. */
  method ChunkOutbound(message: OutboundMessage, limit: int)
    returns (result: Option<seq<OutboundMessage>>, ghost pieces: seq<string>)
    ensures result.Some? <==> !TooSmall(message.text, limit)
    ensures result.Some? ==> SentAs(message, limit, result.value, pieces)
  {
    var chunks;
    chunks, pieces := ChunkText(message.text, limit);
    if chunks.None? { return None, pieces; }
    var texts := chunks.value;
    if |texts| == 1 {
      assert pieces[..0] == [] && Concat(pieces) == pieces[0];
      return Some([message]), pieces;
    }
    return Some(seq(|texts|, i requires 0 <= i < |texts| => ChunkMessage(message, i, |texts|, texts[i]))), pieces;
  }
}
