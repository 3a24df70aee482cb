/**
 * Text handling of the bindings: the GBK codec the host speaks, the UTF-8
 * bytes of Rust strings, C strings read up to their NUL, the removal of
 * trailing NULs, and the split of a chat command into command and text.
 */
module Text {
  import opened Base

  /**
   * The GBK codec (`encode_to_gbk` and `decode_gbk`).  It is a parameter of
   * the model: nothing is assumed about it.
   */
  datatype Gbk = Gbk(encode: string -> seq<Byte>, decode: seq<Byte> -> string)

  /** `String::from_utf8_lossy`, also a parameter of the model. */
  type LossyDecoder = seq<Byte> -> string

  /** The UTF-8 encoding of one character. */
  function Utf8Char(c: char): (r: seq<Byte>)
    ensures 1 <= |r| <= 4
    ensures c == '\0' ==> r == [0]
    ensures c != '\0' ==> 0 !in r
    ensures c as int < 0x80 ==> |r| == 1 && r[0] as int == c as int
  {
    var n := c as int;
    if n < 0x80 then
      [ByteOf(n)]
    else if n < 0x800 then
      [ByteOf(0xC0 + n / 0x40), ByteOf(0x80 + n % 0x40)]
    else if n < 0x1_0000 then
      [ByteOf(0xE0 + n / 0x1000), ByteOf(0x80 + n / 0x40 % 0x40), ByteOf(0x80 + n % 0x40)]
    else
      [ByteOf(0xF0 + n / 0x4_0000), ByteOf(0x80 + n / 0x1000 % 0x40),
       ByteOf(0x80 + n / 0x40 % 0x40), ByteOf(0x80 + n % 0x40)]
  }

  /** The bytes of a Rust `String`, which is UTF-8. */
  function Utf8(s: string): (r: seq<Byte>)
    ensures |s| <= |r| <= 4 * |s|
  {
    if s == [] then [] else Utf8Char(s[0]) + Utf8(s[1..])
  }

  /** Encoding a concatenation encodes the parts one after the other. */
  lemma {:induction false} Utf8Append(s: string, t: string)
    ensures Utf8(s + t) == Utf8(s) + Utf8(t)
  {
    if s == [] {
      assert s + t == t;
    } else {
      assert (s + t)[1..] == s[1..] + t;
      Utf8Append(s[1..], t);
    }
  }

  /** A zero byte occurs in the encoding exactly where a NUL character occurs in the text. */
  lemma {:induction false} Utf8NulFree(s: string)
    ensures 0 in Utf8(s) <==> '\0' in s
  {
    if s != [] {
      Utf8NulFree(s[1..]);
      assert s == [s[0]] + s[1..];
    }
  }

  /** `format!("{s}\0")` as bytes: the text's own bytes followed by one zero byte. */
  lemma Utf8Terminated(s: string)
    ensures Utf8(s + "\0") == Utf8(s) + [0]
  {
    Utf8Append(s, "\0");
  }

  /**
   * `CStr::from_ptr`: the bytes before the first NUL.  A raw C string is
   * modelled by the memory that starts at the pointer; when that memory holds
   * no NUL the whole sequence is taken.
   */
  function CStr(mem: seq<Byte>): (r: seq<Byte>)
    ensures r <= mem
    ensures 0 !in r
    ensures |r| < |mem| ==> mem[|r|] == 0
  {
    if mem == [] || mem[0] == 0 then [] else [mem[0]] + CStr(mem[1..])
  }

  /** A NUL-free byte string followed by a NUL, and anything after it, reads back as itself. */
  lemma CStrOfTerminated(bytes: seq<Byte>, rest: seq<Byte>)
    requires 0 !in bytes
    ensures CStr(bytes + [0] + rest) == bytes
  {
    var mem := bytes + [0] + rest;
    assert mem[..|bytes|] == bytes;
    CStrStopsAt(mem, |bytes|);
  }

  /** A text without NULs, sent with one 0 appended, reads back as its own bytes. */
  lemma Utf8CStr(s: string)
    requires '\0' !in s
    ensures CStr(Utf8(s) + [0]) == Utf8(s)
  {
    Utf8NulFree(s);
    CStrOfTerminated(Utf8(s), []);
    assert Utf8(s) + [0] + [] == Utf8(s) + [0];
  }

  /** The C string is everything before position `k` when the first NUL sits at `k`. */
  lemma {:induction false} CStrStopsAt(mem: seq<Byte>, k: nat)
    requires k < |mem| && mem[k] == 0 && 0 !in mem[..k]
    ensures CStr(mem) == mem[..k]
  {
    if k > 0 {
      assert mem[0] == mem[..k][0];
      assert mem[1..][..k - 1] == mem[1..k];
      CStrStopsAt(mem[1..], k - 1);
      assert mem[..k] == [mem[0]] + mem[1..k];
    }
  }

  /** `r` is `s` without its trailing NULs: a prefix that does not end with a NUL, followed only by NULs. */
  predicate TrimmedOf(r: string, s: string) {
    && r <= s
    && (r == [] || r[|r| - 1] != '\0')
    && forall i | |r| <= i < |s| :: s[i] == '\0'
  }

  /** `trim_end_matches('\0')`: drops every trailing NUL character. */
  function TrimEndNul(s: string): (r: string)
    ensures TrimmedOf(r, s)
  {
    if s != [] && s[|s| - 1] == '\0' then TrimEndNul(s[..|s| - 1]) else s
  }

  /** Only one string is `s` without its trailing NULs. */
  lemma TrimmedOfUnique(r1: string, r2: string, s: string)
    requires TrimmedOf(r1, s) && TrimmedOf(r2, s)
    ensures r1 == r2
  {
    assert |r1| == |r2|;
  }

  /** Trimming twice is trimming once. */
  lemma TrimEndNulIdempotent(s: string)
    ensures TrimEndNul(TrimEndNul(s)) == TrimEndNul(s)
  {
  }

  /** Text that does not end with a NUL is left alone. */
  lemma TrimEndNulNoop(s: string)
    requires s == [] || s[|s| - 1] != '\0'
    ensures TrimEndNul(s) == s
  {
  }

  /** Trimming removes any number of NULs appended to a text that does not end with one. */
  lemma TrimEndNulOfPadded(s: string, pad: string)
    requires s == [] || s[|s| - 1] != '\0'
    requires forall i | 0 <= i < |pad| :: pad[i] == '\0'
    ensures TrimEndNul(s + pad) == s
  {
    assert TrimEndNul(s + pad) == (s + pad)[..|s|] == s;
  }

  /** The index of the first occurrence of `c` in `s`, if any. */
  function IndexOf(s: string, c: char): (r: Option<nat>)
    ensures r.None? ==> c !in s
    ensures r.Some? ==> r.value < |s| && s[r.value] == c && c !in s[..r.value]
  {
    if s == [] then
      None
    else if s[0] == c then
      Some(0)
    else
      match IndexOf(s[1..], c)
      case None => None
      case Some(i) =>
        assert s[..i + 1] == [s[0]] + s[1..][..i];
        Some(i + 1)
  }

  /** `IndexOf` finds the first occurrence. */
  lemma {:induction false} IndexOfFirst(s: string, c: char, k: nat)
    requires k < |s| && s[k] == c && c !in s[..k]
    ensures IndexOf(s, c) == Some(k)
  {
    if k > 0 {
      assert s[0] == s[..k][0];
      assert s[1..][..k - 1] == s[1..k];
      IndexOfFirst(s[1..], c, k - 1);
    }
  }

  /**
   * `splitn(2, ' ')` followed by taking the first piece and the second one
   * or `""`: the command is the text before the first space, the text is
   * everything after it (later spaces included).
   */
  function SplitCommand(line: string): (parts: (string, string))
    ensures ' ' !in parts.0
    ensures ' ' in line ==> parts.0 + " " + parts.1 == line
    ensures ' ' !in line ==> parts == (line, "")
  {
    match IndexOf(line, ' ')
    case None => (line, "")
    case Some(i) =>
      assert line == line[..i] + " " + line[i + 1..];
      (line[..i], line[i + 1..])
  }

  /** The two split laws pin the split down: no other pair satisfies them. */
  lemma SplitCommandUnique(line: string, command: string, text: string)
    requires ' ' in line && ' ' !in command && command + " " + text == line
    ensures SplitCommand(line) == (command, text)
  {
    assert line[..|command|] == command;
    IndexOfFirst(line, ' ', |command|);
    assert line[|command| + 1..] == text;
  }

  /** An empty line gives an empty command and an empty text. */
  lemma SplitCommandEmpty()
    ensures SplitCommand("") == ("", "")
  {
  }
}
