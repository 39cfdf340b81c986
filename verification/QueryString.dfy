/** Query strings: percent-encoding on the side that calls, decoding and lookup on the
    side that serves. Texts are bytes. */
module QueryString {
  import opened Words
  import opened Search

  type Bytes = seq<u8>

  const PLUS: u8 := 0x2B
  const SPACE: u8 := 0x20
  const PERCENT: u8 := 0x25
  const QUESTION: u8 := 0x3F
  const AMPERSAND: u8 := 0x26
  const EQUALS: u8 := 0x3D

  // ---------------------------------------------------------------- percent-encoding

  /** Section 2.3 of RFC 3986: letters, digits, and - . _ ~ */
  predicate Unreserved(c: u8)
  {
    || 0x61 <= c <= 0x7A || 0x41 <= c <= 0x5A || 0x30 <= c <= 0x39
    || c == 0x2D || c == 0x2E || c == 0x5F || c == 0x7E
  }

  function HexDigit(n: int): u8
    requires 0 <= n < 16
  {
    if n < 10 then 0x30 + n else 0x41 + n - 10
  }

  function EscapeByte(c: u8): (r: Bytes)
    ensures |r| > 0
  {
    if Unreserved(c) then [c] else [PERCENT, HexDigit(c / 16), HexDigit(c % 16)]
  }

  function Escape(s: Bytes): Bytes
  {
    if s == [] then [] else Escape(s[..|s| - 1]) + EscapeByte(s[|s| - 1])
  }

  /** `url_escape` */
  method UrlEscape(value: Bytes) returns (out: Bytes)
    ensures out == Escape(value)
  {
    out := [];
    for i := 0 to |value|
      invariant out == Escape(value[..i])
    {
      assert value[..i + 1][..i] == value[..i];
      var c := value[i];
      if Unreserved(c) {
        out := out + [c];
      } else {
        out := out + [PERCENT];
        out := out + [HexDigit(c / 16)];
        out := out + [HexDigit(c % 16)];
      }
    }
    assert value[..|value|] == value;
  }

  /** The value of a hexadecimal digit in either case. */
  function HexValue(c: u8): Option<u8>
  {
    if 0x30 <= c <= 0x39 then Some(c - 0x30)
    else if 0x61 <= c <= 0x66 then Some(c - 0x61 + 10)
    else if 0x41 <= c <= 0x46 then Some(c - 0x41 + 10)
    else None
  }

  predicate EncodedAt(s: Bytes, i: nat)
  {
    && i + 2 < |s| && s[i] == PERCENT && HexValue(s[i + 1]).Some? && HexValue(s[i + 2]).Some?
  }

  /** The byte that stands at `i` and how many bytes it takes; a stray percent sign
      stands for itself. */
  function DecodeAt(s: Bytes, i: nat): (u8, nat)
    requires i < |s|
  {
    if s[i] == PLUS then (SPACE, 1)
    else if EncodedAt(s, i) then (ByteOf(HexValue(s[i + 1]).value, HexValue(s[i + 2]).value), 3)
    else (s[i], 1)
  }

  function DecodeFrom(s: Bytes, i: nat): Bytes
    requires i <= |s|
    decreases |s| - i
  {
    if i == |s| then []
    else
      var (c, width) := DecodeAt(s, i);
      [c] + DecodeFrom(s, i + width)
  }

  /** Two hexadecimal digits as a byte; the caller keeps `high` below 16. */
  function ByteOf(high: int, low: int): u8
  {
    (high * 16 + low) % 256
  }

  /** `url_decode` */
  method UrlDecode(s: Bytes) returns (out: Bytes)
    ensures out == DecodeFrom(s, 0)
  {
    hide DecodeFrom, HexValue, ByteOf;
    out := [];
    var i := 0;
    while i < |s|
      invariant i <= |s| && out + DecodeFrom(s, i) == DecodeFrom(s, 0)
    {
      DecodeMore(s, i, out);
      var c := s[i];
      if c == PLUS {
        out := out + [SPACE];
      } else if c == PERCENT && i + 2 < |s| {
        var high, low := HexValue(s[i + 1]), HexValue(s[i + 2]);
        if high.Some? && low.Some? {
          out := out + [ByteOf(high.value, low.value)];
          i := i + 2;
        } else {
          out := out + [c];
        }
      } else {
        out := out + [c];
      }
      i := i + 1;
    }
    DecodeEnd(s);
    assert out + [] == out;
  }

  lemma DecodeEnd(s: Bytes)
    ensures DecodeFrom(s, |s|) == []
  {
  }

  lemma DecodeMore(s: Bytes, i: nat, out: Bytes)
    requires i < |s|
    ensures var (c, width) := DecodeAt(s, i);
            i + width <= |s| && out + DecodeFrom(s, i) == (out + [c]) + DecodeFrom(s, i + width)
  {
    hide HexValue, ByteOf;
    var (c, width) := DecodeAt(s, i);
    assert DecodeFrom(s, i) == [c] + DecodeFrom(s, i + width);
  }

  lemma HexReadsBack(n: int)
    requires 0 <= n < 16
    ensures HexValue(HexDigit(n)) == Some(n)
  {
  }

  lemma DecodeStep(s: Bytes, i: nat, c: u8)
    requires i + |EscapeByte(c)| <= |s| && s[i..i + |EscapeByte(c)|] == EscapeByte(c)
    ensures DecodeAt(s, i) == (c, |EscapeByte(c)|)
  {
    var e := EscapeByte(c);
    assert s[i] == s[i..i + |e|][0] == e[0];
    if !Unreserved(c) {
      assert s[i + 1] == s[i..i + 3][1] == e[1] && s[i + 2] == s[i..i + 3][2] == e[2];
      HexReadsBack(c / 16);
      HexReadsBack(c % 16);
      assert ByteOf(c / 16, c % 16) == c;
    }
  }

  /** The escaped form of the first `n` bytes, then of the next one. */
  lemma EscapeNext(value: Bytes, n: nat)
    requires n < |value|
    ensures var i := |Escape(value[..n])|;
            && i + |EscapeByte(value[n])| == |Escape(value[..n + 1])| <= |Escape(value)|
            && Escape(value)[i..i + |EscapeByte(value[n])|] == EscapeByte(value[n])
  {
    hide EscapeByte;
    var head := value[..n + 1];
    assert head[..n] == value[..n];
    EscapePrefix(value, n + 1);
    var i := |Escape(value[..n])|;
    assert Escape(value)[i..|Escape(head)|] == Escape(value)[..|Escape(head)|][i..];
  }

  lemma {:induction false} DecodeEscaped(value: Bytes, n: nat)
    requires n <= |value|
    ensures |Escape(value[..n])| <= |Escape(value)|
    ensures DecodeFrom(Escape(value), |Escape(value[..n])|) == value[n..]
    decreases |value| - n
  {
    hide Escape, EscapeByte, DecodeAt;
    var s := Escape(value);
    if n == |value| {
      assert value[..n] == value && value[n..] == [];
      DecodeEnd(s);
    } else {
      DecodeEscaped(value, n + 1);
      EscapeNext(value, n);
      DecodeStep(s, |Escape(value[..n])|, value[n]);
      assert value[n..] == [value[n]] + value[n + 1..];
    }
  }

  lemma {:induction false} EscapePrefix(value: Bytes, n: nat)
    requires n <= |value|
    ensures |Escape(value[..n])| <= |Escape(value)| && Escape(value)[..|Escape(value[..n])|] == Escape(value[..n])
    decreases |value|
  {
    if n == |value| {
      assert value[..n] == value;
    } else {
      var last := |value| - 1;
      assert value[..last][..n] == value[..n];
      EscapePrefix(value[..last], n);
    }
  }

  /** For every byte string: decoding its escaped form gives it back. */
  lemma EscapedReadsBack(value: Bytes)
    ensures DecodeFrom(Escape(value), 0) == value
  {
    hide DecodeFrom;
    DecodeEscaped(value, 0);
    assert value[..0] == [] && value[0..] == value;
  }

  /** An escaped text holds no delimiter. */
  lemma {:induction false} EscapedIsPlain(value: Bytes)
    ensures AMPERSAND !in Escape(value) && EQUALS !in Escape(value) && QUESTION !in Escape(value)
    decreases |value|
  {
    if value != [] {
      EscapedIsPlain(value[..|value| - 1]);
      ByteIsPlain(value[|value| - 1]);
    }
  }

  lemma ByteIsPlain(c: u8)
    ensures AMPERSAND !in EscapeByte(c) && EQUALS !in EscapeByte(c) && QUESTION !in EscapeByte(c)
  {
  }

  // ---------------------------------------------------------------- looking up a parameter

  function Param(query: Bytes, key: Bytes): Bytes
    decreases |query|
  {
    if query == [] then []
    else
      var amp := Find(query, AMPERSAND);
      var pair := if amp.Some? then query[..amp.value] else query;
      var eq := Find(pair, EQUALS);
      if eq.Some? && pair[..eq.value] == key then DecodeFrom(pair[eq.value + 1..], 0)
      else if amp.None? then []
      else Param(query[amp.value + 1..], key)
  }

  function QueryParam(target: Bytes, key: Bytes): Bytes
  {
    var q := Find(target, QUESTION);
    if q.None? then [] else Param(target[q.value + 1..], key)
  }

  /** `parse_query_param` */
  method ParseQueryParam(target: Bytes, key: Bytes) returns (value: Bytes)
    ensures value == QueryParam(target, key)
  {
    hide DecodeFrom, Find, Param;
    var q := Find(target, QUESTION);
    if q.None? {
      return [];
    }
    var query := target[q.value + 1..];
    while query != []
      invariant Param(query, key) == QueryParam(target, key)
      decreases |query|
    {
      ParamNext(query, key);
      var amp := Find(query, AMPERSAND);
      var pair := if amp.None? then query else query[..amp.value];
      var eq := Find(pair, EQUALS);
      if eq.Some? && pair[..eq.value] == key {
        value := UrlDecode(pair[eq.value + 1..]);
        return;
      }
      if amp.None? {
        return [];
      }
      query := query[amp.value + 1..];
    }
    NoParam(key);
    return [];
  }

  lemma NoParam(key: Bytes)
    ensures Param([], key) == []
  {
  }

  lemma ParamNext(query: Bytes, key: Bytes)
    requires query != []
    ensures var amp := Find(query, AMPERSAND);
            var pair := if amp.Some? then query[..amp.value] else query;
            var eq := Find(pair, EQUALS);
            Param(query, key)
            == if eq.Some? && pair[..eq.value] == key then DecodeFrom(pair[eq.value + 1..], 0)
               else if amp.None? then []
               else Param(query[amp.value + 1..], key)
  {
    hide DecodeFrom, Find;
  }

  // ---------------------------------------------------------------- building and reading

  datatype Parameter = Parameter(key: Bytes, value: Bytes)

  function Pair(p: Parameter): Bytes
  {
    p.key + [EQUALS] + Escape(p.value)
  }

  function Join(params: seq<Parameter>): Bytes
  {
    if params == [] then []
    else if |params| == 1 then Pair(params[0])
    else Pair(params[0]) + [AMPERSAND] + Join(params[1..])
  }

  /** The target of a request: a path and escaped parameters. */
  function Target(path: Bytes, params: seq<Parameter>): Bytes
  {
    path + [QUESTION] + Join(params)
  }

  predicate PlainKeys(params: seq<Parameter>)
  {
    forall i :: 0 <= i < |params| ==> AMPERSAND !in params[i].key && EQUALS !in params[i].key
  }

  /** The value of the first parameter with this key, or nothing. */
  function Lookup(params: seq<Parameter>, key: Bytes): Bytes
  {
    if params == [] then []
    else if params[0].key == key then params[0].value
    else Lookup(params[1..], key)
  }

  lemma FirstAt(s: Bytes, i: nat, c: u8)
    requires i < |s| && s[i] == c && c !in s[..i]
    ensures Find(s, c) == Some(i)
  {
    assert c in s;
    assert forall k :: 0 <= k < i ==> s[..i][k] == s[k];
  }

  lemma PairReads(p: Parameter)
    requires AMPERSAND !in p.key && EQUALS !in p.key
    ensures AMPERSAND !in Pair(p) && Find(Pair(p), EQUALS) == Some(|p.key|)
    ensures Pair(p)[..|p.key|] == p.key && Pair(p)[|p.key| + 1..] == Escape(p.value)
  {
    EscapedIsPlain(p.value);
    FirstAt(Pair(p), |p.key|, EQUALS);
  }

  lemma {:induction false} JoinReads(params: seq<Parameter>, key: Bytes)
    requires PlainKeys(params)
    ensures Param(Join(params), key) == Lookup(params, key)
    decreases |params|
  {
    hide Escape, DecodeFrom, Find, Pair, Param;
    if params == [] {
      NoParam(key);
    } else {
      var first, query := Pair(params[0]), Join(params);
      PairReads(params[0]);
      EscapedReadsBack(params[0].value);
      PairIsSomething(params[0]);
      ParamNext(query, key);
      if |params| == 1 {
        assert Find(query, AMPERSAND).None?;
        assert params[1..] == [];
      } else {
        FirstAt(query, |first|, AMPERSAND);
        assert query[..|first|] == first && query[|first| + 1..] == Join(params[1..]);
        JoinReads(params[1..], key);
      }
    }
  }

  lemma PairIsSomething(p: Parameter)
    ensures Pair(p) != []
  {
  }

  /** For every path without a question mark and all parameters with plain keys, a lookup
      in the built target gives the first value with that key, byte for byte, and nothing
      for any other key. */
  lemma BuiltTargetReadsBack(path: Bytes, params: seq<Parameter>, key: Bytes)
    requires QUESTION !in path && PlainKeys(params)
    ensures QueryParam(Target(path, params), key) == Lookup(params, key)
  {
    var target := Target(path, params);
    assert target[..|path|] == path && target[|path| + 1..] == Join(params);
    FirstAt(target, |path|, QUESTION);
    JoinReads(params, key);
  }

  /** With distinct keys every value is read back. */
  lemma {:induction false} DistinctKeysReadBack(params: seq<Parameter>, i: nat)
    requires i < |params| && forall j, k :: 0 <= j < k < |params| ==> params[j].key != params[k].key
    ensures Lookup(params, params[i].key) == params[i].value
    decreases i
  {
    if i > 0 {
      assert params[0].key != params[i].key;
      DistinctKeysReadBack(params[1..], i - 1);
    }
  }

  // ---------------------------------------------------------------- any target

  /** The pieces of a query with ampersands between them, whatever they hold. */
  function Joined(pieces: seq<Bytes>): Bytes
  {
    if pieces == [] then []
    else if |pieces| == 1 then pieces[0]
    else pieces[0] + [AMPERSAND] + Joined(pieces[1..])
  }

  /** The piece gives a value to the key: it starts with the key and its first equals sign. */
  predicate Gives(piece: Bytes, key: Bytes)
  {
    |piece| > |key| && piece[..|key|] == key && EQUALS !in key && piece[|key|] == EQUALS
  }

  /** What the first piece that gives the key a value says, decoded, or nothing. */
  function FirstGiven(pieces: seq<Bytes>, key: Bytes): Bytes
  {
    if pieces == [] then []
    else if Gives(pieces[0], key) then DecodeFrom(pieces[0][|key| + 1..], 0)
    else FirstGiven(pieces[1..], key)
  }

  lemma GivesIs(piece: Bytes, key: Bytes)
    ensures var eq := Find(piece, EQUALS);
            Gives(piece, key) <==> eq.Some? && piece[..eq.value] == key
    ensures Gives(piece, key) ==> Find(piece, EQUALS) == Some(|key|)
  {
    if Gives(piece, key) {
      FirstAt(piece, |key|, EQUALS);
    }
    assert forall k :: 0 <= k < |key| && k < |piece| ==> piece[..k + 1][k] == piece[k];
  }

  lemma {:induction false} PiecesAreRead(pieces: seq<Bytes>, key: Bytes)
    requires forall i :: 0 <= i < |pieces| ==> AMPERSAND !in pieces[i]
    ensures Param(Joined(pieces), key) == FirstGiven(pieces, key)
    decreases |pieces|
  {
    hide DecodeFrom, Find, Param, Gives;
    if pieces == [] {
      NoParam(key);
    } else {
      var first, query := pieces[0], Joined(pieces);
      GivesIs(first, key);
      if |pieces| == 1 {
        if first == [] {
          NoParam(key);
          NothingGiven(key);
        } else {
          ParamNext(query, key);
        }
        assert pieces[1..] == [];
      } else {
        ParamNext(query, key);
        FirstAt(query, |first|, AMPERSAND);
        assert query[..|first|] == first && query[|first| + 1..] == Joined(pieces[1..]);
        PiecesAreRead(pieces[1..], key);
      }
    }
  }

  lemma NothingGiven(key: Bytes)
    ensures !Gives([], key)
  {
  }

  /** Every target, well built or not: what stands before the first question mark is
      passed over, and the first piece that gives the key a value decides. */
  lemma AnyTargetIsRead(path: Bytes, pieces: seq<Bytes>, key: Bytes)
    requires QUESTION !in path && forall i :: 0 <= i < |pieces| ==> AMPERSAND !in pieces[i]
    ensures QueryParam(path, key) == []
    ensures QueryParam(path + [QUESTION] + Joined(pieces), key) == FirstGiven(pieces, key)
  {
    var target := path + [QUESTION] + Joined(pieces);
    assert target[..|path|] == path && target[|path| + 1..] == Joined(pieces);
    FirstAt(target, |path|, QUESTION);
    PiecesAreRead(pieces, key);
  }

  // ---------------------------------------------------------------- form-encoded texts

  const UPPER_DIGITS := "0123456789ABCDEF"
  const LOWER_DIGITS := "0123456789abcdef"

  /** A byte is escaped exactly when it is no letter, no digit and none of the four marks,
      and then as a percent sign and two upper-case digits. */
  lemma EscapesExactly(c: u8)
    ensures var ch := c as char;
            EscapeByte(c) == if 'A' <= ch <= 'Z' || 'a' <= ch <= 'z' || '0' <= ch <= '9' || ch in "-._~" then [c]
                             else ['%' as int, UPPER_DIGITS[c / 16] as int, UPPER_DIGITS[c % 16] as int]
  {
    UpperDigit(c / 16);
    UpperDigit(c % 16);
    assert "-._~"[0] == '-' && "-._~"[1] == '.' && "-._~"[2] == '_' && "-._~"[3] == '~';
  }

  lemma UpperDigit(n: int)
    requires 0 <= n < 16
    ensures HexDigit(n) == UPPER_DIGITS[n] as int
  {
  }

  /** This byte is a hexadecimal digit of this value, in either case. */
  predicate IsDigitOf(digit: u8, value: int)
  {
    0 <= value < 16 && (digit as char == UPPER_DIGITS[value] || digit as char == LOWER_DIGITS[value])
  }

  lemma DigitOfIsRead(digit: u8, value: int)
    requires 0 <= value < 16
    ensures IsDigitOf(digit, value) <==> HexValue(digit) == Some(value)
  {
  }

  predicate IsAnyDigit(digit: u8)
  {
    digit as char in UPPER_DIGITS || digit as char in LOWER_DIGITS
  }

  lemma AnyDigitIsRead(digit: u8)
    ensures HexValue(digit).Some? ==> IsAnyDigit(digit)
  {
    if HexValue(digit).Some? {
      var v := HexValue(digit).value;
      DigitOfIsRead(digit, v);
      assert UPPER_DIGITS[v] in UPPER_DIGITS && LOWER_DIGITS[v] in LOWER_DIGITS;
    }
  }

  /** How a form writes one byte: as it is, a space as a plus sign, or two digits. */
  datatype Written = Plain(c: u8) | Plus | Hex(high: u8, low: u8, c: u8)

  predicate WellWritten(w: Written)
  {
    match w
    case Plain(c) => c != PLUS && c != PERCENT
    case Plus => true
    case Hex(high, low, c) => IsDigitOf(high, c / 16) && IsDigitOf(low, c % 16)
  }

  function FormByte(w: Written): (b: Bytes)
    ensures b != []
  {
    match w
    case Plain(c) => [c]
    case Plus => [0x2B]
    case Hex(high, low, _) => [0x25, high, low]
  }

  function Meant(w: Written): u8
  {
    match w
    case Plain(c) => c
    case Plus => 0x20
    case Hex(_, _, c) => c
  }

  function FormText(ws: seq<Written>): Bytes
  {
    if ws == [] then [] else FormByte(ws[0]) + FormText(ws[1..])
  }

  function FormMeaning(ws: seq<Written>): Bytes
  {
    seq(|ws|, i requires 0 <= i < |ws| => Meant(ws[i]))
  }

  lemma FormByteRead(before: Bytes, w: Written, rest: Bytes)
    requires WellWritten(w)
    ensures DecodeAt(before + (FormByte(w) + rest), |before|) == (Meant(w), |FormByte(w)|)
  {
    var s, i := before + (FormByte(w) + rest), |before|;
    assert s[i] == FormByte(w)[0];
    if w.Hex? {
      assert s[i + 1] == w.high && s[i + 2] == w.low;
      DigitOfIsRead(w.high, w.c / 16);
      DigitOfIsRead(w.low, w.c % 16);
    }
  }

  lemma {:induction false} FormReads(before: Bytes, ws: seq<Written>)
    requires forall i :: 0 <= i < |ws| ==> WellWritten(ws[i])
    ensures DecodeFrom(before + FormText(ws), |before|) == FormMeaning(ws)
    decreases |ws|
  {
    hide DecodeAt, Meant, FormByte, WellWritten;
    var s := before + FormText(ws);
    if ws == [] {
      assert s == before && FormMeaning(ws) == [];
    } else {
      FormByteRead(before, ws[0], FormText(ws[1..]));
      var next := before + FormByte(ws[0]);
      assert s == next + FormText(ws[1..]);
      FormReads(next, ws[1..]);
      assert FormMeaning(ws) == [Meant(ws[0])] + FormMeaning(ws[1..]);
    }
  }

  /** Every form-encoded text, with digits of either case and plus signs for spaces, is
      decoded to the bytes that were meant. */
  lemma FormIsDecoded(ws: seq<Written>)
    requires forall i :: 0 <= i < |ws| ==> WellWritten(ws[i])
    ensures DecodeFrom(FormText(ws), 0) == FormMeaning(ws)
  {
    FormReads([], ws);
    assert [] + FormText(ws) == FormText(ws);
  }

  /** A percent sign without two digits behind it stands for itself. */
  lemma StrayPercent(s: Bytes, i: nat)
    requires i < |s| && s[i] == 0x25
    requires i + 2 >= |s| || !IsAnyDigit(s[i + 1]) || !IsAnyDigit(s[i + 2])
    ensures DecodeFrom(s, i) == [0x25] + DecodeFrom(s, i + 1)
  {
    if i + 2 < |s| {
      AnyDigitIsRead(s[i + 1]);
      AnyDigitIsRead(s[i + 2]);
    }
  }
}
