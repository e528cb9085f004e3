/** The request bodies Client.send_request builds in client.py: the UTF-8
    bytes of its strings, the multipart/form-data body used when a file is
    sent, and the application/x-www-form-urlencoded body carrying the single
    field request-json otherwise.  Each encoder is paired with a decoder, as a
    receiving server would apply it, and the two are proved inverse. */
module RequestEncoding {
  import opened PyValues

  newtype byte = x: int | 0 <= x < 256

  // ---------------------------------------------------------------------------
  // UTF-8 (str.encode())
  // ---------------------------------------------------------------------------

  /** The UTF-8 encoding of one Unicode scalar value. */
  function Utf8Char(c: char): (bs: seq<byte>)
    ensures 1 <= |bs| <= 4
    ensures (c as int < 128) <==> |bs| == 1
    ensures c as int < 128 ==> bs == [c as int as byte]
    ensures c as int >= 128 ==> forall i :: 0 <= i < |bs| ==> bs[i] >= 128
  {
    var n := c as int;
    if n < 0x80 then [n as byte]
    else if n < 0x800 then [(0xC0 + n / 0x40) as byte, (0x80 + n % 0x40) as byte]
    else if n < 0x1_0000 then
      [(0xE0 + n / 0x1000) as byte, (0x80 + n / 0x40 % 0x40) as byte, (0x80 + n % 0x40) as byte]
    else
      [(0xF0 + n / 0x4_0000) as byte, (0x80 + n / 0x1000 % 0x40) as byte,
       (0x80 + n / 0x40 % 0x40) as byte, (0x80 + n % 0x40) as byte]
  }

  /** s.encode('utf-8') */
  function Utf8(s: string): seq<byte> {
    if s == [] then [] else Utf8Char(s[0]) + Utf8(s[1..])
  }

  lemma {:induction false} Utf8Append(a: string, b: string)
    ensures Utf8(a + b) == Utf8(a) + Utf8(b)
  {
    if a == [] {
      assert a + b == b;
    } else {
      assert (a + b)[0] == a[0];
      assert (a + b)[1..] == a[1..] + b;
      Utf8Append(a[1..], b);
    }
  }

  /** A character other than the ASCII character x never contributes the byte x. */
  lemma {:induction false} Utf8Avoids(s: string, x: char)
    requires x as int < 128 && x !in s
    ensures x as int as byte !in Utf8(s)
  {
    if s != [] {
      Utf8Avoids(s[1..], x);
      var h := Utf8Char(s[0]);
      if s[0] as int < 128 {
        assert h == [s[0] as int as byte];
      }
      assert x as int as byte !in h;
    }
  }

  /** An ASCII string encodes to one byte per character. */
  lemma {:induction false} Utf8Ascii(s: string)
    requires forall i :: 0 <= i < |s| ==> s[i] as int < 128
    ensures |Utf8(s)| == |s|
    ensures forall i :: 0 <= i < |s| ==> Utf8(s)[i] == s[i] as int as byte
  {
    if s != [] {
      Utf8Ascii(s[1..]);
    }
  }

  // ---------------------------------------------------------------------------
  // Multipart body
  // ---------------------------------------------------------------------------

  predicate IsDigit(c: char) {
    '0' <= c <= '9'
  }

  /** '===============%s==' % boundary_key, where boundary_key is 19 digits
      drawn at random (the draw is the parameter). */
  function Boundary(key: string): (b: string)
    requires |key| == 19 && forall i :: 0 <= i < |key| ==> IsDigit(key[i])
    ensures |b| == 36
    ensures b[..15] == "===============" && b[15..34] == key && b[34..] == "=="
    ensures forall i :: 0 <= i < |b| ==> b[i] == '=' || IsDigit(b[i])
  {
    "===============" + key + "=="
  }

  /** The Content-Type header of a multipart request: it names the boundary. */
  function MultipartContentType(boundary: string): (h: string)
    ensures |h| == 32 + |boundary|
    ensures h[..30] == "multipart/form-data; boundary=" && h[30..] == "\"" + boundary + "\""
  {
    "multipart/form-data; boundary=\"" + boundary + "\""
  }

  const FIELD_HEAD := "Content-Type: text/plain\r\nMIME-Version: 1.0\r\n"
                      + "Content-disposition: form-data; name=\"request-json\"\r\n\r\n"
  const FILE_HEAD := "Content-Type: application/octet-stream\r\nMIME-Version: 1.0\r\n"
                     + "Content-disposition: form-data; name=\"file\"; filename=\""

  /** The part of data_pre that opens the request-json part. */
  function FieldOpening(boundary: string): string {
    "--" + boundary + "\n" + FIELD_HEAD
  }

  /** The part of data_pre, after the JSON text and its newline, that opens
      the file part up to the filename. */
  function FileOpening(boundary: string): string {
    "--" + boundary + "\n" + FILE_HEAD
  }

  /** data_pre */
  function MultipartPre(boundary: string, json: string, filename: string): string {
    FieldOpening(boundary) + json + "\n" + FileOpening(boundary) + filename + "\"\r\n\r\n"
  }

  /** data_post: the close delimiter. */
  function MultipartPost(boundary: string): string {
    "\n--" + boundary + "--\n"
  }

  /** data_pre.encode() + file_args[1] + data_post.encode() */
  function MultipartBody(boundary: string, json: string, filename: string, content: seq<byte>): (r: seq<byte>)
    ensures Utf8(FieldOpening(boundary)) <= r
    ensures |Utf8(MultipartPost(boundary))| <= |r|
            && r[|r| - |Utf8(MultipartPost(boundary))|..] == Utf8(MultipartPost(boundary))
  {
    var rest := json + "\n" + FileOpening(boundary) + filename + "\"\r\n\r\n";
    assert MultipartPre(boundary, json, filename) == FieldOpening(boundary) + rest;
    Utf8Append(FieldOpening(boundary), rest);
    var r := Utf8(MultipartPre(boundary, json, filename)) + content + Utf8(MultipartPost(boundary));
    assert r[|r| - |Utf8(MultipartPost(boundary))|..] == Utf8(MultipartPost(boundary));
    r
  }

  /** The bytes before and after the first occurrence of x. */
  function SplitAt(bs: seq<byte>, x: byte): (r: Option<(seq<byte>, seq<byte>)>)
    ensures r.Some? ==> r.value.0 + [x] + r.value.1 == bs && x !in r.value.0
    ensures r.None? <==> x !in bs
  {
    if bs == [] then None
    else if bs[0] == x then Some(([], bs[1..]))
    else match SplitAt(bs[1..], x)
      case None => None
      case Some((before, after)) =>
        assert [bs[0]] + before + [x] + after == [bs[0]] + (before + [x] + after);
        Some(([bs[0]] + before, after))
  }

  lemma {:induction false} SplitAtFirst(a: seq<byte>, x: byte, b: seq<byte>)
    requires x !in a
    ensures SplitAt(a + [x] + b, x) == Some((a, b))
  {
    if a == [] {
      assert a + [x] + b == [x] + b;
    } else {
      assert (a + [x] + b)[1..] == a[1..] + [x] + b;
      SplitAtFirst(a[1..], x, b);
      assert [a[0]] + a[1..] == a;
    }
  }

  datatype MultipartParts = MultipartParts(json: seq<byte>, filename: seq<byte>, content: seq<byte>)

  const NEWLINE: byte := 10
  const QUOTE: byte := 34

  /** What a receiver that knows the boundary reads out of a multipart body:
      the request-json text up to the first newline, the filename up to the
      first double quote, and the file bytes before the close delimiter. */
  function ParseMultipart(body: seq<byte>, boundary: string): Option<MultipartParts> {
    var open1 := Utf8(FieldOpening(boundary));
    if !(open1 <= body) then None
    else match SplitAt(body[|open1|..], NEWLINE)
      case None => None
      case Some((json, r2)) =>
        var open2 := Utf8(FileOpening(boundary));
        if !(open2 <= r2) then None
        else match SplitAt(r2[|open2|..], QUOTE)
          case None => None
          case Some((filename, r4)) =>
            var gap := Utf8("\r\n\r\n");
            var close := Utf8(MultipartPost(boundary));
            if !(gap <= r4) || |r4| < |gap| + |close| || r4[|r4| - |close|..] != close then None
            else Some(MultipartParts(json, filename, r4[|gap|..|r4| - |close|]))
  }

  lemma Utf8Separators()
    ensures Utf8("\n") == [NEWLINE] && Utf8("\"\r\n\r\n") == [QUOTE] + Utf8("\r\n\r\n")
  {
  }

  /** The multipart body gives back the JSON text, the filename and the file
      bytes, provided the JSON text has no newline (json.dumps without indent
      writes none) and the filename no double quote (the code does not escape
      one). */
  lemma MultipartRoundTrip(boundary: string, json: string, filename: string, content: seq<byte>)
    requires '\n' !in json && '"' !in filename
    ensures ParseMultipart(MultipartBody(boundary, json, filename, content), boundary)
            == Some(MultipartParts(Utf8(json), Utf8(filename), content))
  {
    var open1, open2 := Utf8(FieldOpening(boundary)), Utf8(FileOpening(boundary));
    var j, f := Utf8(json), Utf8(filename);
    var gap, close := Utf8("\r\n\r\n"), Utf8(MultipartPost(boundary));
    BodyLayout(boundary, json, filename, content);
    Utf8Avoids(json, '\n');
    Utf8Avoids(filename, '"');
    ParseLaidOutParts(boundary, j, f, content);
  }

  /** The parser reads back the pieces of a body laid out as data_pre,
      content and data_post lay it out. */
  lemma ParseLaidOutParts(boundary: string, j: seq<byte>, f: seq<byte>, content: seq<byte>)
    requires NEWLINE !in j && QUOTE !in f
    ensures var open1, open2 := Utf8(FieldOpening(boundary)), Utf8(FileOpening(boundary));
            var gap, close := Utf8("\r\n\r\n"), Utf8(MultipartPost(boundary));
            ParseMultipart(open1 + (j + [NEWLINE] + (open2 + (f + [QUOTE] + (gap + content + close)))), boundary)
            == Some(MultipartParts(j, f, content))
  {
    var open1, open2 := Utf8(FieldOpening(boundary)), Utf8(FileOpening(boundary));
    var gap, close := Utf8("\r\n\r\n"), Utf8(MultipartPost(boundary));
    var r4 := gap + content + close;
    var r3 := f + [QUOTE] + r4;
    var tail := open2 + r3;
    var r1 := j + [NEWLINE] + tail;
    var body := open1 + r1;
    assert body[|open1|..] == r1;
    SplitAtFirst(j, NEWLINE, tail);
    assert tail[|open2|..] == r3;
    SplitAtFirst(f, QUOTE, r4);
    assert gap <= r4;
    assert r4[|r4| - |close|..] == close;
    assert r4[|gap|..|r4| - |close|] == content;
  }

  /** The bytes of the body, grouped as the parser consumes them. */
  lemma BodyLayout(boundary: string, json: string, filename: string, content: seq<byte>)
    ensures MultipartBody(boundary, json, filename, content)
            == Utf8(FieldOpening(boundary)) + (Utf8(json) + [NEWLINE] + (Utf8(FileOpening(boundary))
               + (Utf8(filename) + [QUOTE] + (Utf8("\r\n\r\n") + content + Utf8(MultipartPost(boundary))))))
  {
    PreBytes(boundary, json, filename);
    Regroup(Utf8(FieldOpening(boundary)), Utf8(json), Utf8(FileOpening(boundary)), Utf8(filename),
            Utf8("\r\n\r\n"), content, Utf8(MultipartPost(boundary)));
  }

  lemma Regroup(a: seq<byte>, j: seq<byte>, b: seq<byte>, f: seq<byte>, s: seq<byte>, c: seq<byte>, p: seq<byte>)
    ensures a + j + [NEWLINE] + b + f + [QUOTE] + s + c + p
            == a + (j + [NEWLINE] + (b + (f + [QUOTE] + (s + c + p))))
  {
  }

  /** The bytes of data_pre, piece by piece. */
  lemma PreBytes(boundary: string, json: string, filename: string)
    ensures Utf8(MultipartPre(boundary, json, filename))
            == Utf8(FieldOpening(boundary)) + Utf8(json) + [NEWLINE] + Utf8(FileOpening(boundary))
               + Utf8(filename) + [QUOTE] + Utf8("\r\n\r\n")
  {
    var a, b := FieldOpening(boundary), FileOpening(boundary);
    Utf8Separators();
    Utf8Append(a + json + "\n" + b + filename, "\"\r\n\r\n");
    Utf8Append(a + json + "\n" + b, filename);
    Utf8Append(a + json + "\n", b);
    Utf8Append(a + json, "\n");
    Utf8Append(a, json);
  }

  // ---------------------------------------------------------------------------
  // Form body (urlencode({'request-json': json}))
  // ---------------------------------------------------------------------------

  /** The bytes urllib.parse.quote never escapes. */
  predicate AlwaysSafe(b: byte) {
    (65 <= b <= 90) || (97 <= b <= 122) || (48 <= b <= 57) || b == 95 || b == 46 || b == 45 || b == 126
  }

  const HEX_DIGITS := "0123456789ABCDEF"

  /** How quote_plus writes one byte of the UTF-8 text. */
  function QuoteByte(b: byte): (s: string)
    ensures AlwaysSafe(b) ==> s == [b as int as char]
    ensures !AlwaysSafe(b) && b == 32 ==> s == "+"
    ensures !AlwaysSafe(b) && b != 32 ==>
              |s| == 3 && s[0] == '%' && s[1] in HEX_DIGITS && s[2] in HEX_DIGITS
              && HexValue(s[1]) * 16 + HexValue(s[2]) == b as int
  {
    if AlwaysSafe(b) then [b as int as char]
    else if b == 32 then "+"
    else
      HexDigitValue(b as int / 16);
      HexDigitValue(b as int % 16);
      ['%', HEX_DIGITS[b as int / 16], HEX_DIGITS[b as int % 16]]
  }

  /** quote_plus on the UTF-8 bytes of a string. */
  function QuotePlus(bs: seq<byte>): string {
    if bs == [] then [] else QuoteByte(bs[0]) + QuotePlus(bs[1..])
  }

  function HexValue(c: char): int {
    if '0' <= c <= '9' then c as int - 48
    else if 'A' <= c <= 'F' then c as int - 55
    else if 'a' <= c <= 'f' then c as int - 87
    else -1
  }

  /** unquote_plus, before the bytes are decoded: '+' is a space, '%' and two
      hex digits a byte, and any other character (a '%' not followed by two
      hex digits included) its own UTF-8 bytes. */
  function UnquotePlus(s: string): seq<byte>
    decreases |s|
  {
    if s == [] then []
    else if s[0] == '+' then [32] + UnquotePlus(s[1..])
    else if s[0] == '%' && |s| >= 3 && HexValue(s[1]) >= 0 && HexValue(s[2]) >= 0 then
      [(HexValue(s[1]) * 16 + HexValue(s[2])) as byte] + UnquotePlus(s[3..])
    else Utf8Char(s[0]) + UnquotePlus(s[1..])
  }

  const FIELD_NAME := "request-json="

  /** urlencode({'request-json': json}); the field name has no character
      quote_plus escapes. */
  function FormText(json: string): (r: string)
    ensures FIELD_NAME <= r
    ensures forall i :: 0 <= i < |r| ==> r[i] as int < 128
  {
    QuotePlusIsAscii(Utf8(json));
    FIELD_NAME + QuotePlus(Utf8(json))
  }

  /** The characters of a form body are ASCII, so its bytes are its characters. */
  lemma {:induction false} QuotePlusIsAscii(bs: seq<byte>)
    ensures forall i :: 0 <= i < |QuotePlus(bs)| ==> QuotePlus(bs)[i] as int < 128
  {
    if bs != [] {
      QuotePlusIsAscii(bs[1..]);
      var h := QuoteByte(bs[0]);
      assert forall i :: 0 <= i < |h| ==> h[i] as int < 128;
      assert forall i :: |h| <= i < |QuotePlus(bs)| ==> QuotePlus(bs)[i] == QuotePlus(bs[1..])[i - |h|];
    }
  }

  /** What a receiver reads out of the form body: the value of the field. */
  function ParseForm(text: string): Option<seq<byte>> {
    if FIELD_NAME <= text then Some(UnquotePlus(text[|FIELD_NAME|..])) else None
  }

  lemma UnquoteQuoteByte(b: byte, rest: string)
    ensures UnquotePlus(QuoteByte(b) + rest) == [b] + UnquotePlus(rest)
  {
    if AlwaysSafe(b) {
      UnquoteSafeByte(b, rest);
    } else if b == 32 {
      var q := QuoteByte(b);
      assert (q + rest)[0] == '+' && (q + rest)[1..] == rest;
    } else {
      UnquoteEscapedByte(b, rest);
    }
  }

  lemma UnquoteSafeByte(b: byte, rest: string)
    requires AlwaysSafe(b)
    ensures UnquotePlus(QuoteByte(b) + rest) == [b] + UnquotePlus(rest)
  {
    var q := QuoteByte(b);
    assert (q + rest)[0] == b as int as char && (q + rest)[1..] == rest;
  }

  lemma UnquoteEscapedByte(b: byte, rest: string)
    requires !AlwaysSafe(b) && b != 32
    ensures UnquotePlus(QuoteByte(b) + rest) == [b] + UnquotePlus(rest)
  {
    var q := QuoteByte(b);
    var hi, lo := b as int / 16, b as int % 16;
    HexDigitValue(hi);
    HexDigitValue(lo);
    assert (q + rest)[..3] == q && (q + rest)[3..] == rest;
  }

  /** Each hex digit quote_plus writes reads back as its value. */
  lemma HexDigitValue(d: int)
    requires 0 <= d < 16
    ensures HexValue(HEX_DIGITS[d]) == d
  {
  }

  lemma {:induction false} UnquoteQuote(bs: seq<byte>)
    ensures UnquotePlus(QuotePlus(bs)) == bs
  {
    if bs != [] {
      UnquoteQuoteByte(bs[0], QuotePlus(bs[1..]));
      UnquoteQuote(bs[1..]);
    }
  }

  /** Form-decoding the body gives back exactly the UTF-8 bytes of the JSON text. */
  lemma FormRoundTrip(json: string)
    ensures ParseForm(FormText(json)) == Some(Utf8(json))
  {
    var t := FormText(json);
    assert t[|FIELD_NAME|..] == QuotePlus(Utf8(json));
    UnquoteQuote(Utf8(json));
  }

  // ---------------------------------------------------------------------------
  // The request
  // ---------------------------------------------------------------------------

  /** The request send_request hands to urlopen. */
  datatype Request = Request(url: string, headers: seq<(string, string)>, data: seq<byte>)

  /** The body and headers send_request builds for the JSON text json: a
      multipart body naming file_args[0] when a file is sent, the form body
      with no headers otherwise. */
  function EncodeRequest(url: string, json: string, fileArgs: Option<(string, seq<byte>)>,
                         boundaryKey: string): (r: Request)
    requires fileArgs.Some? ==> |boundaryKey| == 19 && forall i :: 0 <= i < |boundaryKey| ==> IsDigit(boundaryKey[i])
    ensures r.url == url
    ensures fileArgs.None? ==> r.headers == [] && r.data == Utf8(FormText(json))
    ensures fileArgs.Some? ==>
              r.headers == [("Content-Type", MultipartContentType(Boundary(boundaryKey)))]
              && r.data == MultipartBody(Boundary(boundaryKey), json, fileArgs.value.0, fileArgs.value.1)
  {
    match fileArgs
    case Some((filename, content)) =>
      var boundary := Boundary(boundaryKey);
      Request(url, [("Content-Type", MultipartContentType(boundary))],
              MultipartBody(boundary, json, filename, content))
    case None =>
      Request(url, [], Utf8(FormText(json)))
  }

  /** Whatever the branch, the receiver recovers the JSON text from the body
      (for a multipart body, provided the conditions of MultipartRoundTrip). */
  lemma RequestCarriesJson(url: string, json: string, fileArgs: Option<(string, seq<byte>)>, boundaryKey: string)
    requires fileArgs.Some? ==> |boundaryKey| == 19 && forall i :: 0 <= i < |boundaryKey| ==> IsDigit(boundaryKey[i])
    requires '\n' !in json
    requires fileArgs.Some? ==> '"' !in fileArgs.value.0
    ensures var r := EncodeRequest(url, json, fileArgs, boundaryKey);
            fileArgs.None? ==> ParseForm(FormText(json)) == Some(Utf8(json))
                               && Utf8(FormText(json)) == r.data
    ensures var r := EncodeRequest(url, json, fileArgs, boundaryKey);
            fileArgs.Some? ==> ParseMultipart(r.data, Boundary(boundaryKey))
                               == Some(MultipartParts(Utf8(json), Utf8(fileArgs.value.0), fileArgs.value.1))
  {
    if fileArgs.Some? {
      MultipartRoundTrip(Boundary(boundaryKey), json, fileArgs.value.0, fileArgs.value.1);
    } else {
      FormRoundTrip(json);
    }
  }
}
