/** The JSON text of a list of strings, as Go's `encoding/json` writes and
    reads it for the queue table's `StringSlice` columns. The writer escapes
    as `json.Marshal` does (HTML-safe: `<`, `>` and `&` as `\u00XX`; `\b`,
    `\f`, `\n`, `\r`, `\t` in their short forms; other control characters as
    `\u00XX`; U+2028 and U+2029 escaped). The reader accepts what the writer
    writes, with whitespace between tokens, and `null`. Text is a sequence
    of characters; its UTF-8 bytes are not modelled. */
module GoStringListJson {
  import opened Wrappers

  const Hex := "0123456789abcdef"

  /** The escaped form of one character inside a string literal. */
  function EscapeChar(c: char): (e: seq<char>)
    ensures |e| >= 1
    ensures e[0] == '\\' || e == [c]
  {
    if c == '"' then ['\\', '"']
    else if c == '\\' then ['\\', '\\']
    else if c as int == 8 then ['\\', 'b']
    else if c as int == 12 then ['\\', 'f']
    else if c == '\n' then ['\\', 'n']
    else if c == '\r' then ['\\', 'r']
    else if c == '\t' then ['\\', 't']
    else if c as int < 0x20 || c == '<' || c == '>' || c == '&' then
      ['\\', 'u', '0', '0', Hex[c as int / 16], Hex[c as int % 16]]
    else if c as int == 0x2028 || c as int == 0x2029 then
      ['\\', 'u', '2', '0', '2', Hex[c as int % 16]]
    else [c]
  }

  /** A string's characters, escaped. */
  function EscapeBody(s: string): seq<char> {
    if s == [] then [] else EscapeChar(s[0]) + EscapeBody(s[1..])
  }

  function Quote(s: string): seq<char> {
    ['"'] + EscapeBody(s) + ['"']
  }

  /** The list's items, quoted and comma-separated. */
  function Items(l: seq<string>): seq<char> {
    if l == [] then []
    else if |l| == 1 then Quote(l[0])
    else Quote(l[0]) + [','] + Items(l[1..])
  }

  /** `json.Marshal` of a list of strings. */
  function Marshal(l: seq<string>): seq<char> {
    ['['] + Items(l) + [']']
  }

  predicate IsSpace(c: char) {
    c == ' ' || c == '\t' || c == '\n' || c == '\r'
  }

  function SkipSpace(t: seq<char>): (r: seq<char>)
    ensures |r| <= |t| && (r == [] || !IsSpace(r[0]))
    ensures t != [] && !IsSpace(t[0]) ==> r == t
  {
    if t != [] && IsSpace(t[0]) then SkipSpace(t[1..]) else t
  }

  function HexValue(c: char): Option<nat> {
    if '0' <= c <= '9' then Some(c as int - '0' as int)
    else if 'a' <= c <= 'f' then Some(c as int - 'a' as int + 10)
    else if 'A' <= c <= 'F' then Some(c as int - 'A' as int + 10)
    else None
  }

  /** The code point of four hex digits. */
  function Hex4(t: seq<char>): Option<nat>
    requires |t| == 4
  {
    match (HexValue(t[0]), HexValue(t[1]), HexValue(t[2]), HexValue(t[3]))
    case (Some(a), Some(b), Some(c), Some(d)) => Some(((a * 16 + b) * 16 + c) * 16 + d)
    case _ => None
  }

  /** The character an escape other than `\u` stands for. */
  function ShortEscape(c: char): Option<char> {
    if c == '"' || c == '\\' || c == '/' then Some(c)
    else if c == 'b' then Some(8 as char)
    else if c == 'f' then Some(12 as char)
    else if c == 'n' then Some('\n')
    else if c == 'r' then Some('\r')
    else if c == 't' then Some('\t')
    else None
  }

  /** The first character of a string literal's body and the text after it. */
  function UnescapeOne(t: seq<char>): (r: Option<(char, seq<char>)>)
    requires t != [] && t[0] != '"'
    ensures r.Some? ==> |r.value.1| < |t|
  {
    if t[0] == '\\' then
      if |t| < 2 then None
      else if t[1] == 'u' then
        if |t| < 6 then None
        else match Hex4(t[2..6])
          case Some(v) => if v < 0xD800 || 0xE000 <= v < 0x11_0000 then Some((v as char, t[6..])) else None
          case None => None
      else match ShortEscape(t[1])
        case Some(c) => Some((c, t[2..]))
        case None => None
    else if t[0] as int < 0x20 then None
    else Some((t[0], t[1..]))
  }

  /** A string literal's body up to its closing quote: the string and the
      text after the quote. */
  function ParseBody(t: seq<char>): (r: Option<(string, seq<char>)>)
    ensures r.Some? ==> |r.value.1| < |t|
    decreases |t|
  {
    if t == [] then None
    else if t[0] == '"' then Some(([], t[1..]))
    else match UnescapeOne(t)
      case None => None
      case Some((c, rest)) =>
        match ParseBody(rest)
        case None => None
        case Some((s, after)) => Some(([c] + s, after))
  }

  /** The items of a list after its `[` and its first item's start: the
      strings and the text after the closing `]`. */
  function ParseItems(t: seq<char>): (r: Option<(seq<string>, seq<char>)>)
    ensures r.Some? ==> |r.value.1| < |t|
    decreases |t|
  {
    var t := SkipSpace(t);
    if t == [] || t[0] != '"' then None
    else match ParseBody(t[1..])
      case None => None
      case Some((s, rest)) =>
        var rest := SkipSpace(rest);
        if rest == [] then None
        else if rest[0] == ']' then Some(([s], rest[1..]))
        else if rest[0] == ',' then
          match ParseItems(rest[1..])
          case None => None
          case Some((more, after)) => Some(([s] + more, after))
        else None
  }

  /** `json.Unmarshal` into a string slice: `None` for `null`, the list for
      an array of strings, an error for anything else. */
  function Unmarshal(data: seq<char>): Result<Option<seq<string>>> {
    var t := SkipSpace(data);
    if |t| >= 4 && t[..4] == "null" && SkipSpace(t[4..]) == [] then Ok(None)
    else if t == [] || t[0] != '[' then Err("invalid JSON for a string list")
    else
      var inner := SkipSpace(t[1..]);
      if inner != [] && inner[0] == ']' then
        if SkipSpace(inner[1..]) == [] then Ok(Some([])) else Err("invalid JSON for a string list")
      else match ParseItems(inner)
        case Some((l, after)) =>
          if SkipSpace(after) == [] then Ok(Some(l)) else Err("invalid JSON for a string list")
        case None => Err("invalid JSON for a string list")
  }

  lemma HexDigits(n: nat)
    requires n < 16
    ensures HexValue(Hex[n]) == Some(n)
  {
    if n < 8 {
      if n < 4 {
        if n < 2 { if n == 0 { assert Hex[n] == '0'; } else { assert Hex[n] == '1'; } }
        else { if n == 2 { assert Hex[n] == '2'; } else { assert Hex[n] == '3'; } }
      } else {
        if n < 6 { if n == 4 { assert Hex[n] == '4'; } else { assert Hex[n] == '5'; } }
        else { if n == 6 { assert Hex[n] == '6'; } else { assert Hex[n] == '7'; } }
      }
    } else {
      if n < 12 {
        if n < 10 { if n == 8 { assert Hex[n] == '8'; } else { assert Hex[n] == '9'; } }
        else { if n == 10 { assert Hex[n] == 'a'; } else { assert Hex[n] == 'b'; } }
      } else {
        if n < 14 { if n == 12 { assert Hex[n] == 'c'; } else { assert Hex[n] == 'd'; } }
        else { if n == 14 { assert Hex[n] == 'e'; } else { assert Hex[n] == 'f'; } }
      }
    }
  }

  /** Reading one escaped character gives the character back. */
  lemma UnescapeEscaped(c: char, t: seq<char>)
    ensures EscapeChar(c)[0] != '"'
    ensures UnescapeOne(EscapeChar(c) + t) == Some((c, t))
  {
    var e := EscapeChar(c);
    if e[0] == '\\' {
      if e[1] == 'u' {
        UnicodeEscapeRead(c, t);
      } else {
        ShortEscapeRead(c, t);
      }
    } else {
      assert (e + t)[1..] == t;
    }
  }

  /** A `\uXXXX` escape reads back as its character. */
  lemma UnicodeEscapeRead(c: char, t: seq<char>)
    requires |EscapeChar(c)| > 1 && EscapeChar(c)[0] == '\\' && EscapeChar(c)[1] == 'u'
    ensures UnescapeOne(EscapeChar(c) + t) == Some((c, t))
  {
    if c as int == 0x2028 || c as int == 0x2029 {
      SeparatorEscapeRead(c, t);
    } else {
      assert c as int < 0x40;
      ControlEscapeRead(c, t);
    }
  }

  /** `\u00XX`: a control character or one of `<`, `>`, `&`. */
  lemma ControlEscapeRead(c: char, t: seq<char>)
    requires c as int < 0x40
    requires EscapeChar(c) == ['\\', 'u', '0', '0', Hex[c as int / 16], Hex[c as int % 16]]
    ensures UnescapeOne(EscapeChar(c) + t) == Some((c, t))
  {
    var n := c as int;
    var digits := ['0', '0', Hex[n / 16], Hex[n % 16]];
    HexDigits(n / 16);
    HexDigits(n % 16);
    assert HexValue('0') == Some(0);
    assert Hex4(digits) == Some(((0 * 16 + 0) * 16 + n / 16) * 16 + n % 16);
    HexEscapeRead(digits, n, t);
    assert EscapeChar(c) == ['\\', 'u'] + digits;
  }

  /** `\u2028` and `\u2029`, the line and paragraph separators. */
  lemma SeparatorEscapeRead(c: char, t: seq<char>)
    requires c as int == 0x2028 || c as int == 0x2029
    ensures UnescapeOne(EscapeChar(c) + t) == Some((c, t))
  {
    var n := c as int;
    var digits := ['2', '0', '2', Hex[n % 16]];
    HexDigits(n % 16);
    assert HexValue('2') == Some(2) && HexValue('0') == Some(0);
    assert Hex4(digits) == Some(((2 * 16 + 0) * 16 + 2) * 16 + n % 16);
    HexEscapeRead(digits, n, t);
    assert EscapeChar(c) == ['\\', 'u'] + digits;
  }

  /** `\u` and four hex digits of a code point below the surrogates read
      back as that character. */
  lemma HexEscapeRead(digits: seq<char>, n: nat, t: seq<char>)
    requires |digits| == 4 && Hex4(digits) == Some(n) && n < 0xD800
    ensures UnescapeOne(['\\', 'u'] + digits + t) == Some((n as char, t))
  {
    var u := ['\\', 'u'] + digits + t;
    assert u[2..6] == digits && u[6..] == t;
  }

  /** A two-letter escape reads back as its character. */
  lemma ShortEscapeRead(c: char, t: seq<char>)
    requires |EscapeChar(c)| > 1 && EscapeChar(c)[0] == '\\' && EscapeChar(c)[1] != 'u'
    ensures UnescapeOne(EscapeChar(c) + t) == Some((c, t))
  {
    var e := EscapeChar(c);
    var u := e + t;
    assert u[0] == '\\' && u[1] == e[1];
    assert u[2..] == t;
  }

  /** Reading an escaped body and its closing quote gives the string back. */
  lemma {:induction false} ParseEscapedBody(s: string, t: seq<char>)
    ensures ParseBody(EscapeBody(s) + ['"'] + t) == Some((s, t))
  {
    if s == [] {
      assert EscapeBody(s) + ['"'] + t == ['"'] + t;
    } else {
      var rest := EscapeBody(s[1..]) + ['"'] + t;
      assert EscapeBody(s) + ['"'] + t == EscapeChar(s[0]) + rest;
      UnescapeEscaped(s[0], rest);
      ParseEscapedBody(s[1..], t);
      assert [s[0]] + s[1..] == s;
    }
  }

  /** A quoted string followed by anything reads back as the string. */
  lemma QuotedItem(x: string, after: seq<char>)
    ensures var u := Quote(x) + after;
      u != [] && u[0] == '"' && ParseBody(u[1..]) == Some((x, after))
  {
    var u := Quote(x) + after;
    assert u[1..] == EscapeBody(x) + ['"'] + after;
    ParseEscapedBody(x, after);
  }

  /** One step of `ParseItems` at a string followed by `]`. */
  lemma ItemsLastStep(t: seq<char>, x: string, rest: seq<char>)
    requires t != [] && t[0] == '"' && ParseBody(t[1..]) == Some((x, rest))
    requires rest != [] && rest[0] == ']'
    ensures ParseItems(t) == Some(([x], rest[1..]))
  {
    assert SkipSpace(t) == t && SkipSpace(rest) == rest;
  }

  /** One step of `ParseItems` at a string followed by `,`. */
  lemma ItemsNextStep(t: seq<char>, x: string, rest: seq<char>)
    requires t != [] && t[0] == '"' && ParseBody(t[1..]) == Some((x, rest))
    requires rest != [] && rest[0] == ',' && ParseItems(rest[1..]).Some?
    ensures ParseItems(t) == Some(([x] + ParseItems(rest[1..]).value.0, ParseItems(rest[1..]).value.1))
  {
    assert SkipSpace(t) == t && SkipSpace(rest) == rest;
  }

  /** One quoted item, then the closing bracket. */
  lemma LastItem(x: string, t: seq<char>)
    ensures ParseItems(Quote(x) + [']'] + t) == Some(([x], t))
  {
    var close := [']'] + t;
    QuotedItem(x, close);
    Associate(Quote(x), [']'], t);
    ItemsLastStep(Quote(x) + close, x, close);
    assert close[1..] == t;
  }

  /** One quoted item, a comma, then more items. */
  lemma ItemThenMore(x: string, tail: seq<char>)
    requires ParseItems(tail).Some?
    ensures ParseItems(Quote(x) + [','] + tail) ==
      Some(([x] + ParseItems(tail).value.0, ParseItems(tail).value.1))
  {
    var comma := [','] + tail;
    QuotedItem(x, comma);
    Associate(Quote(x), [','], tail);
    assert comma[1..] == tail;
    ItemsNextStep(Quote(x) + comma, x, comma);
  }

  lemma ItemsStartWithQuote(l: seq<string>)
    requires l != []
    ensures Items(l) != [] && Items(l)[0] == '"'
  {
    if |l| == 1 {
      assert Items(l) == Quote(l[0]);
    } else {
      assert Items(l) == Quote(l[0]) + [','] + Items(l[1..]);
    }
  }

  lemma ItemsSplit(l: seq<string>, t: seq<char>)
    requires |l| > 1
    ensures Items(l) + [']'] + t == Quote(l[0]) + [','] + (Items(l[1..]) + [']'] + t)
  {
    assert Items(l) == Quote(l[0]) + [','] + Items(l[1..]);
    Associate(Quote(l[0]) + [','], Items(l[1..]), [']'] + t);
    Associate(Items(l[1..]), [']'], t);
    Associate(Quote(l[0]) + [','] + Items(l[1..]), [']'], t);
  }

  lemma Associate<T>(a: seq<T>, b: seq<T>, c: seq<T>)
    ensures a + b + c == a + (b + c)
  {
  }

  /** Reading the items of a non-empty list and the closing bracket gives
      the list back. */
  lemma {:induction false} ParseWrittenItems(l: seq<string>, t: seq<char>)
    requires l != []
    ensures ParseItems(Items(l) + [']'] + t) == Some((l, t))
  {
    if |l| == 1 {
      LastItem(l[0], t);
      assert [l[0]] == l;
    } else {
      var tail := Items(l[1..]) + [']'] + t;
      ParseWrittenItems(l[1..], t);
      ItemThenMore(l[0], tail);
      ItemsSplit(l, t);
      assert [l[0]] + l[1..] == l;
    }
  }

  /** `json.Unmarshal(json.Marshal(l))` gives `l` back, for every list. */
  lemma MarshalRoundTrip(l: seq<string>)
    ensures Unmarshal(Marshal(l)) == Ok(Some(l))
  {
    if l == [] {
      MarshalEmptyRoundTrip();
    } else {
      MarshalItemsRoundTrip(l);
    }
  }

  lemma MarshalEmptyRoundTrip()
    ensures Unmarshal(Marshal([])) == Ok(Some([]))
  {
    var m := Marshal([]);
    assert m == ['[', ']'];
    assert SkipSpace(m) == m && SkipSpace(m[1..]) == m[1..];
  }

  lemma MarshalItemsRoundTrip(l: seq<string>)
    requires l != []
    ensures Unmarshal(Marshal(l)) == Ok(Some(l))
  {
    var m := Marshal(l);
    var inner := Items(l) + [']'];
    assert m == ['['] + inner;
    assert m[0] == '[' && m[1..] == inner;
    ItemsStartWithQuote(l);
    assert inner[0] == '"';
    ParseWrittenItems(l, []);
    assert inner + [] == inner;
    UnmarshalList(m, l);
  }

  /** A bracketed text whose items parse to the whole list, nothing after. */
  lemma UnmarshalList(m: seq<char>, l: seq<string>)
    requires |m| > 1 && m[0] == '[' && m[1] == '"' && ParseItems(m[1..]) == Some((l, []))
    ensures Unmarshal(m) == Ok(Some(l))
  {
    assert SkipSpace(m) == m && SkipSpace(m[1..]) == m[1..];
    assert !(|m| >= 4 && m[..4] == "null") by {
      if |m| >= 4 {
        assert m[..4][0] != "null"[0];
      }
    }
  }
}

/** The queue table mapping of the Go rewrite
    (golang_app/internal/adapters/secondaryadapters/dbadapter/queues_repo.go):
    the admin and member lists are `StringSlice` columns holding JSON text.
    A database driver value is modelled as text, bytes (as characters) or a
    value of some other Go type, named by its type. */
module GoQueuesRepo {
  import opened Wrappers
  import opened GoDomain
  import opened GoStringListJson

  datatype DriverValue = DbNull | DbText(text: string) | DbBytes(bytes: seq<char>) | DbOther(typeName: string)

  /** `StringSlice.Value`: "[]" for a nil slice, else the JSON bytes. */
  function Value(s: Option<seq<string>>): (v: DriverValue)
    ensures s.None? ==> v == DbText("[]")
    ensures s.Some? ==> v == DbBytes(Marshal(s.value))
  {
    match s
    case None => DbText("[]")
    case Some(l) => DbBytes(Marshal(l))
  }

  /** What `Scan` leaves in the slice, or its error. The decoder checks the
      whole text before writing, so text that is not JSON leaves the slice as
      it was. */
  function Scanned(value: DriverValue): Result<Option<seq<string>>> {
    match value
    case DbNull => Ok(Some([]))
    case DbBytes(data) => Unmarshal(data)
    case DbText(text) => Unmarshal(text)
    case DbOther(typeName) => Err("unsupported type for StringSlice: " + typeName)
  }

  /** Storing a list and scanning it back gives the list, and a nil list
      comes back empty but not nil: nil-ness does not survive the table. */
  lemma ValueThenScan(s: Option<seq<string>>)
    ensures Scanned(Value(s)) == Ok(Some(s.GetOr([])))
  {
    match s
    case None => {
      assert "[]"[..1] == "[";
      assert "[]"[1..] == "]";
    }
    case Some(l) => MarshalRoundTrip(l);
  }

  /** A value that is neither text nor bytes nor NULL is refused with an error
      that names its type. */
  lemma ScanRefusesOtherTypes(typeName: string)
    ensures Scanned(DbOther(typeName)) == Err("unsupported type for StringSlice: " + typeName)
    ensures Scanned(DbNull) == Ok(Some([]))
  {
  }

  /** A `StringSlice` column value that `Scan` writes through. */
  class StringSliceCell {
    var slice: Option<seq<string>>

    constructor(initial: Option<seq<string>>)
      ensures slice == initial
    {
      slice := initial;
    }

    /** `StringSlice.Scan`: on success the slice holds what was read; on an
        error it is left as it was. */
    method Scan(value: DriverValue) returns (err: Option<string>)
      modifies this
      ensures var r := Scanned(value);
        (r.Ok? ==> err.None? && slice == r.value) && (r.Err? ==> err == Some(r.msg) && slice == old(slice))
    {
      if value.DbNull? {
        slice := Some([]);
        return None;
      }
      var data: seq<char>;
      match value {
        case DbBytes(bytes) => data := bytes;
        case DbText(text) => data := text;
        case DbOther(typeName) => return Some("unsupported type for StringSlice: " + typeName);
      }
      var decoded := Unmarshal(data);
      if decoded.Err? {
        return Some(decoded.msg);
      }
      slice := decoded.value;
      err := None;
    }
  }

  /** `QueueDTO`: one row of the queues table. */
  datatype QueueDTO = QueueDTO(
    id: string, channelId: string, name: string, description: string, createdById: string,
    adminIds: Option<seq<string>>, memberIds: Option<seq<string>>, createdAt: int, updatedAt: int)

  /** `QueueDTO.ToDomain`. */
  function ToDomain(dto: QueueDTO): (q: Queue)
    ensures q.id == dto.id && q.adminIds == dto.adminIds && q.memberIds == dto.memberIds
  {
    Queue(dto.id, dto.channelId, dto.name, dto.description, dto.createdById,
          dto.adminIds, dto.memberIds, dto.createdAt, dto.updatedAt)
  }

  /** `NewQueueDTO`: the row a queue is stored as; reading it back gives the
      same queue, nil lists included. */
  function NewQueueDTO(q: Queue): (dto: QueueDTO)
    ensures ToDomain(dto) == q
  {
    QueueDTO(q.id, q.channelId, q.name, q.description, q.createdById,
             q.adminIds, q.memberIds, q.createdAt, q.updatedAt)
  }

  /** Every row is the row of the queue it reads as. */
  lemma QueueRowRoundTrip(dto: QueueDTO)
    ensures NewQueueDTO(ToDomain(dto)) == dto
  {
  }

  /** The loop shared by the `Find*` readers: a slice of the rows' length,
      filled index by index with each row's queue. */
  method RowsToDomain(dtos: seq<QueueDTO>) returns (queues: array<Queue>)
    ensures fresh(queues) && queues.Length == |dtos|
    ensures forall i :: 0 <= i < |dtos| ==> queues[i] == ToDomain(dtos[i])
  {
    queues := new Queue[|dtos|];
    for i := 0 to |dtos|
      invariant forall j :: 0 <= j < i ==> queues[j] == ToDomain(dtos[j])
    {
      queues[i] := ToDomain(dtos[i]);
    }
  }
}
