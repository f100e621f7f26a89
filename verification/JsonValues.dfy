/** The output of the escaper read as JSON (section 7 of RFC 8259), which the scanner of this
    repository does only in part. */
module JsonValues {
  import opened Wrappers
  import opened JsonText

  /** What the character after a backslash stands for, by section 7 of RFC 8259. */
  function Escaped(c: byte): Option<byte> {
    if c == 34 || c == 92 || c == 47 then Some(c)
    else if c == 98 then Some(8)
    else if c == 102 then Some(12)
    else if c == 110 then Some(10)
    else if c == 114 then Some(13)
    else if c == 116 then Some(9)
    else None
  }

  /** The text that the inside of a JSON string stands for; None if it is not the inside of a
      JSON string, or has a \u escape, of which the escaper makes none. */
  function JsonValue(s: bytes): Option<bytes>
    decreases |s|
  {
    if s == [] then Some([])
    else if s[0] == 34 || s[0] < 32 then None
    else if s[0] != 92 then
      match JsonValue(s[1..])
      case Some(rest) => Some([s[0]] + rest)
      case None => None
    else if |s| < 2 || Escaped(s[1]).None? then None
    else
      match JsonValue(s[2..])
      case Some(rest) => Some([Escaped(s[1]).value] + rest)
      case None => None
  }

  /** A text without its control characters other than newline, carriage return and tab. */
  function Kept(text: bytes): bytes {
    if text == [] then []
    else (if text[0] >= 32 || text[0] == 10 || text[0] == 13 || text[0] == 9 then [text[0]] else []) + Kept(text[1..])
  }

  lemma EscapedOneValue(c: byte, rest: bytes)
    requires JsonValue(rest).Some?
    ensures JsonValue(EscapeOne(c) + rest).Some?
    ensures JsonValue(EscapeOne(c) + rest).value
         == (if c >= 32 || c == 10 || c == 13 || c == 9 then [c] else []) + JsonValue(rest).value
  {
    var e := EscapeOne(c);
    if |e| == 2 {
      assert (e + rest)[2..] == rest;
    } else if |e| == 1 {
      assert (e + rest)[1..] == rest;
    } else {
      assert e + rest == rest && [] + JsonValue(rest).value == JsonValue(rest).value;
    }
  }

  /** The escaper always prints the inside of a JSON string, and it stands for the text without
      the control characters that are dropped. */
  lemma {:induction false} EscapeIsJson(text: bytes)
    ensures JsonValue(Escape(text)) == Some(Kept(text))
  {
    if text != [] {
      EscapeIsJson(text[1..]);
      EscapedOneValue(text[0], Escape(text[1..]));
    }
  }

  // ---- The scanner on JSON it did not escape itself ------------------------

  /** No backspace, form feed or carriage return is written as an escape. */
  predicate NoRareEscape(s: bytes)
    decreases |s|
  {
    if s == [] then true
    else if s[0] != 92 || |s| < 2 then NoRareEscape(s[1..])
    else s[1] != 98 && s[1] != 102 && s[1] != 114 && NoRareEscape(s[2..])
  }

  /** The scanner reads the inside of any JSON string for what it stands for exactly if it holds
      none of those three escapes. */
  lemma {:induction false} ScanReadsJson(s: bytes, rest: bytes, room: nat)
    requires JsonValue(s).Some? && |JsonValue(s).value| <= room
    requires rest == [] || rest[0] == 34
    ensures Scan(s + rest, room) == JsonValue(s).value <==> NoRareEscape(s)
    decreases |s|
  {
    if s != [] {
      var n := if s[0] == 92 then 2 else 1;
      ScanReadsJson(s[n..], rest, room - 1);
      assert (s + rest)[n..] == s[n..] + rest;
      var head := if s[0] == 92 then Decode(s[1]) else s[0];
      assert Scan(s + rest, room) == [head] + Scan(s[n..] + rest, room - 1);
      SameCons(head, Scan(s[n..] + rest, room - 1), JsonValue(s).value[0], JsonValue(s[n..]).value);
    }
  }

  lemma SameCons(a: byte, x: bytes, b: byte, y: bytes)
    ensures [a] + x == [b] + y <==> a == b && x == y
  {
    assert ([a] + x)[0] == a && ([b] + y)[0] == b && ([a] + x)[1..] == x && ([b] + y)[1..] == y;
  }
}
