/** The hook client's hand-written JSON: the escaper it prints content with and the scanner
    it extracts fields with. Characters are bytes; a C string holds no 0 byte. */
module JsonText {
  import opened Wrappers
  import opened CText

  /** Characters in the 256-byte pattern buffer. */
  const PATTERN_LEN := 255

  const NEWLINE: byte := 10
  const TAB: byte := 9
  const RETURN: byte := 13
  const QUOTE: byte := 34
  const BACKSLASH: byte := 92
  const LETTER_N: byte := 110
  const LETTER_R: byte := 114
  const LETTER_T: byte := 116
  const COLON: byte := 58
  const SPACE: byte := 32

  /** What print_json_escaped prints for one character. */
  function EscapeOne(c: byte): bytes {
    if c == QUOTE then [BACKSLASH, QUOTE]
    else if c == BACKSLASH then [BACKSLASH, BACKSLASH]
    else if c == NEWLINE then [BACKSLASH, LETTER_N]
    else if c == RETURN then [BACKSLASH, LETTER_R]
    else if c == TAB then [BACKSLASH, LETTER_T]
    else if c >= 32 then [c]
    else []
  }

  function Escape(text: bytes): bytes {
    if text == [] then [] else EscapeOne(text[0]) + Escape(text[1..])
  }

  method PrintJsonEscaped(text: bytes) returns (out: bytes)
    ensures out == Escape(text)
  {
    out := [];
    var i := 0;
    while i < |text|
      invariant i <= |text|
      invariant Escape(text) == out + Escape(text[i..])
    {
      EscapeStep(text, i, out);
      out := out + EscapeOne(text[i]);
      i := i + 1;
    }
  }

  lemma EscapeStep(text: bytes, i: nat, out: bytes)
    requires i < |text|
    ensures out + Escape(text[i..]) == out + EscapeOne(text[i]) + Escape(text[i + 1..])
  {
    assert text[i..][1..] == text[i + 1..];
  }

  function Decode(c: byte): byte {
    if c == LETTER_N then NEWLINE else if c == LETTER_T then TAB else c
  }

  /** The scan loop from a position inside the string on: up to room characters, stopping at
      the end of the text or at an unescaped quote. */
  function Scan(s: bytes, room: nat): bytes
    decreases |s|
  {
    if s == [] || s[0] == QUOTE || room == 0 then []
    else if s[0] == BACKSLASH && |s| > 1 then [Decode(s[1])] + Scan(s[2..], room - 1)
    else [s[0]] + Scan(s[1..], room - 1)
  }

  /** What survives escaping and scanning of one character: a carriage return comes back as
      the letter r and other control characters are dropped. */
  function NormalOne(c: byte): bytes {
    if c == RETURN then [LETTER_R] else if Plain(c) then [c] else []
  }

  function Normal(text: bytes): bytes {
    if text == [] then [] else NormalOne(text[0]) + Normal(text[1..])
  }

  predicate Plain(c: byte) { c >= 32 || c == NEWLINE || c == TAB }

  predicate Printable(text: bytes) {
    forall i | 0 <= i < |text| :: Plain(text[i])
  }

  lemma ScanOne(c: byte, more: bytes, room: nat)
    requires room > 0
    ensures NormalOne(c) == [] ==> EscapeOne(c) == []
    ensures NormalOne(c) != [] ==> Scan(EscapeOne(c) + more, room) == NormalOne(c) + Scan(more, room - 1)
  {
    var e := EscapeOne(c);
    if |e| == 2 {
      assert (e + more)[2..] == more;
    } else if |e| == 1 {
      assert (e + more)[1..] == more;
    }
  }

  lemma TruncateCons(x: bytes, rest: bytes, room: nat)
    requires |x| == 1 && room > 0
    ensures Truncate(x + rest, room) == x + Truncate(rest, room - 1)
  {}

  /** Scanning an escaped text yields its normal form, cut to the room there is. */
  lemma {:induction false} ScanUndoesEscape(text: bytes, rest: bytes, room: nat)
    requires rest == [] || rest[0] == QUOTE
    ensures Scan(Escape(text) + rest, room) == Truncate(Normal(text), room)
  {
    if text != [] && room > 0 {
      var c, more := text[0], Escape(text[1..]) + rest;
      assert Escape(text) + rest == EscapeOne(c) + more;
      ScanOne(c, more, room);
      if NormalOne(c) == [] {
        assert EscapeOne(c) + more == more;
        assert Normal(text) == Normal(text[1..]);
        ScanUndoesEscape(text[1..], rest, room);
      } else {
        ScanUndoesEscape(text[1..], rest, room - 1);
        TruncateCons(NormalOne(c), Normal(text[1..]), room);
      }
    }
  }

  lemma {:induction false} NormalFixed(text: bytes)
    ensures |Normal(text)| <= |text|
    ensures Normal(text) == text <==> Printable(text)
  {
    if text != [] {
      var c, tail := text[0], text[1..];
      NormalFixed(tail);
      assert Printable(text) <==> Plain(c) && Printable(tail) by {
        assert forall i | 1 <= i < |text| :: text[i] == tail[i - 1];
        assert forall i | 0 <= i < |tail| :: tail[i] == text[i + 1];
      }
      assert text == [c] + tail;
      if NormalOne(c) == [c] {
        assert ([c] + Normal(tail))[1..] == Normal(tail);
      }
    }
  }

  /** The scan returns the text that was escaped exactly when the text has no control
      characters other than newline and tab and fits the buffer. */
  lemma EscapeRoundTrip(text: bytes, rest: bytes, room: nat)
    requires rest == [] || rest[0] == QUOTE
    ensures Scan(Escape(text) + rest, room) == text <==> Printable(text) && |text| <= room
  {
    ScanUndoesEscape(text, rest, room);
    NormalFixed(text);
  }

  // ---- extract_json_string ------------------------------------------------

  /** strstr: the first position of p in s. */
  function Find(s: bytes, p: bytes): (r: Option<nat>)
    ensures r.Some? ==> OccursAt(p, s, r.value) && forall i | 0 <= i < r.value :: !OccursAt(p, s, i)
    ensures r.None? ==> forall i: nat :: !OccursAt(p, s, i)
  {
    FindFrom(s, p, 0)
  }

  function FindFrom(s: bytes, p: bytes, i: nat): (r: Option<nat>)
    requires i <= |s|
    ensures r.Some? ==> r.value >= i && OccursAt(p, s, r.value) && forall j | i <= j < r.value :: !OccursAt(p, s, j)
    ensures r.None? ==> forall j: nat | i <= j :: !OccursAt(p, s, j)
    decreases |s| - i
  {
    if OccursAt(p, s, i) then Some(i) else if i == |s| then None else FindFrom(s, p, i + 1)
  }

  /** What precedes the value of a key, with or without a space after the colon. */
  function Label(key: bytes, gap: bytes): bytes {
    [QUOTE] + key + [QUOTE, COLON] + gap + [QUOTE]
  }

  /** The label as it fits the scanner's pattern buffer. */
  function KeyPattern(key: bytes, gap: bytes): bytes {
    Truncate(Label(key, gap), PATTERN_LEN)
  }

  /** Where the value of the key starts: after the first "key":" or else the first "key": " */
  function ValueStart(json: bytes, key: bytes): Option<nat> {
    match Find(json, KeyPattern(key, []))
    case Some(i) => Some(i + |KeyPattern(key, [])|)
    case None =>
      match Find(json, KeyPattern(key, [SPACE]))
      case Some(i) => Some(i + |KeyPattern(key, [SPACE])|)
      case None => None
  }

  /** The output buffer holds outSize characters including the terminator. A missing key
      leaves the buffer as it was and returns 0. */
  method ExtractJsonString(json: bytes, key: bytes, out: array<byte>) returns (len: nat)
    requires out.Length > 0
    modifies out
    ensures len < out.Length
    ensures ValueStart(json, key).None? ==> len == 0 && out[..] == old(out[..])
    ensures ValueStart(json, key).Some? ==>
              var start := ValueStart(json, key).value;
              start <= |json| && out[..len] == Scan(json[start..], out.Length - 1) && out[len] == 0
  {
    var start := ValueStart(json, key);
    if start.None? { return 0; }
    len := ScanInto(json, start.value, out);
    out[len] := 0;
  }

  /** The loop: p moves through the text, i through the buffer. */
  method ScanInto(json: bytes, start: nat, out: array<byte>) returns (i: nat)
    requires start <= |json| && out.Length > 0
    modifies out
    ensures i < out.Length && out[..i] == Scan(json[start..], out.Length - 1)
  {
    ghost var goal := Scan(json[start..], out.Length - 1);
    var p := start;
    i := 0;
    while p < |json| && json[p] != QUOTE && i < out.Length - 1
      invariant p <= |json| && i <= out.Length - 1
      invariant goal == out[..i] + Scan(json[p..], out.Length - 1 - i)
    {
      p, i := CopyChar(json, p, out, i);
    }
  }

  /** One round: a character into the buffer. */
  method CopyChar(json: bytes, p: nat, out: array<byte>, i: nat) returns (p': nat, i': nat)
    requires p < |json| && json[p] != QUOTE && i < out.Length - 1
    modifies out
    ensures p < p' <= |json| && i' == i + 1
    ensures out[..i'] + Scan(json[p'..], out.Length - 1 - i') == old(out[..i]) + Scan(json[p..], out.Length - 1 - i)
  {
    var c;
    c, p' := NextChar(json, p, out.Length - 1 - i);
    Regroup(out[..i], [c], Scan(json[p'..], out.Length - 2 - i));
    i' := PutAt(out, i, c);
  }

  /** The character at p, or the one that the escape at p stands for, and where the next one is. */
  method NextChar(json: bytes, p: nat, ghost room: nat) returns (c: byte, next: nat)
    requires p < |json| && json[p] != QUOTE && room > 0
    ensures p < next <= |json|
    ensures Scan(json[p..], room) == [c] + Scan(json[next..], room - 1)
  {
    ScanStep(json, p, room);
    next, c := p, json[p];
    if c == BACKSLASH && p + 1 < |json| {
      next := p + 1;
      c := if json[next] == LETTER_N then NEWLINE else if json[next] == LETTER_T then TAB else json[next];
    }
    next := next + 1;
  }

  /** out[i++] = c */
  method PutAt(out: array<byte>, i: nat, c: byte) returns (next: nat)
    requires i < out.Length
    modifies out
    ensures next == i + 1 && out[..next] == old(out[..i]) + [c]
  {
    out[i] := c;
    return i + 1;
  }

  lemma ScanStep(s: bytes, p: nat, room: nat)
    requires p < |s| && s[p] != QUOTE && room > 0
    ensures Scan(s[p..], room)
         == if s[p] == BACKSLASH && p + 1 < |s| then [Decode(s[p + 1])] + Scan(s[p + 2..], room - 1)
            else [s[p]] + Scan(s[p + 1..], room - 1)
  {
    assert s[p..][1..] == s[p + 1..];
    if p + 1 < |s| { assert s[p..][2..] == s[p + 2..]; }
  }

  /** Extracting a field from a document that carries an escaped text under the key, when the
      key does not occur earlier, gives the text back under the same exact condition. A label
      with a space after the colon is found if none without it occurs anywhere. */
  lemma FieldRoundTrip(json: bytes, before: bytes, key: bytes, gap: bytes, text: bytes, after: bytes, room: nat)
    requires json == before + Label(key, gap) + (Escape(text) + ([QUOTE] + after))
    requires (gap == [] || gap == [SPACE]) && |Label(key, gap)| <= PATTERN_LEN
    requires forall i | 0 <= i < |before| :: !OccursAt(Label(key, gap), json, i)
    requires gap == [SPACE] ==> forall i: nat :: !OccursAt(Label(key, []), json, i)
    ensures ValueStart(json, key) == Some(|before| + |Label(key, gap)|)
    ensures Scan(json[|before| + |Label(key, gap)|..], room) == text <==> Printable(text) && |text| <= room
  {
    LabelFound(before, Label(key, gap), Escape(text) + ([QUOTE] + after), json);
    LabelStarts(json, |before|, key, gap);
    FieldScanned(json, |before| + |Label(key, gap)|, text, after, room);
  }

  lemma FieldScanned(json: bytes, at: nat, text: bytes, after: bytes, room: nat)
    requires at <= |json| && json[at..] == Escape(text) + ([QUOTE] + after)
    ensures Scan(json[at..], room) == text <==> Printable(text) && |text| <= room
  {
    EscapeRoundTrip(text, [QUOTE] + after, room);
  }

  lemma LabelStarts(json: bytes, at: nat, key: bytes, gap: bytes)
    requires (gap == [] || gap == [SPACE]) && |Label(key, gap)| <= PATTERN_LEN
    requires Find(json, Label(key, gap)) == Some(at)
    requires gap == [SPACE] ==> forall i: nat :: !OccursAt(Label(key, []), json, i)
    ensures ValueStart(json, key) == Some(at + |Label(key, gap)|)
  {
    assert KeyPattern(key, gap) == Label(key, gap);
    if gap == [SPACE] {
      assert |Label(key, [])| <= |Label(key, gap)|;
      assert KeyPattern(key, []) == Label(key, []);
    }
  }

  lemma LabelFound(before: bytes, p: bytes, rest: bytes, json: bytes)
    requires json == before + p + rest
    requires forall i | 0 <= i < |before| :: !OccursAt(p, json, i)
    ensures Find(json, p) == Some(|before|) && |before| + |p| <= |json| && json[|before| + |p|..] == rest
  {
    assert json[|before|..|before| + |p|] == p;
    assert OccursAt(p, json, |before|);
  }
}
