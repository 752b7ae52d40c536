/**
 * The chat service's handshake gate: a WebSocket upgrade is accepted only with a `token`
 * query parameter that the JWT decoder accepts, and the session's user id is the
 * token's subject. The query string is read the way the servlet container reads it.
 */
module HandshakeAuth {
  import opened Common
  import ChatSocketClient

  // ---------------------------------------------------------------------------
  // Reading a query parameter
  // ---------------------------------------------------------------------------

  /** The value of a hexadecimal digit, either case. */
  function HexValue(c: char): (v: Option<int>)
    ensures v.Some? ==> 0 <= v.value < 16
  {
    if '0' <= c <= '9' then Some(c as int - '0' as int)
    else if 'A' <= c <= 'F' then Some(c as int - 'A' as int + 10)
    else if 'a' <= c <= 'f' then Some(c as int - 'a' as int + 10)
    else None
  }

  lemma HexDigitValue(n: int)
    requires 0 <= n < 16
    ensures HexValue(ChatSocketClient.HexDigit(n)) == Some(n)
  {
  }

  /**
   * URL decoding of a query component: `+` is a space and `%XY` the byte XY. `None` for
   * a malformed escape, and for escapes of bytes above 0x7F, whose UTF-8 decoding is not
   * part of this model.
   */
  function UrlDecode(s: string): (r: Option<string>)
    ensures r.Some? ==> |r.value| <= |s|
    decreases |s|
  {
    if s == [] then Some("")
    else if s[0] == '%' then
      if |s| < 3 || HexValue(s[1]).None? || HexValue(s[2]).None? then None
      else
        var b := HexValue(s[1]).value * 16 + HexValue(s[2]).value;
        if b >= 0x80 then None
        else match UrlDecode(s[3..])
          case None => None
          case Some(rest) => Some([b as char] + rest)
    else
      match UrlDecode(s[1..])
      case None => None
      case Some(rest) => Some([if s[0] == '+' then ' ' else s[0]] + rest)
  }

  /** Text without `%` or `+` decodes to itself. */
  lemma {:induction false} UrlDecodePlain(s: string)
    requires '%' !in s && '+' !in s
    ensures UrlDecode(s) == Some(s)
  {
    if s != [] {
      UrlDecodePlain(s[1..]);
      assert [s[0]] + s[1..] == s;
    }
  }

  /** One `name=value` piece: split at the first `=`; a piece without one is a name with an empty value. */
  function SplitPair(piece: string): (pair: (string, string))
    ensures '=' !in piece ==> pair == (piece, "")
    ensures '=' in piece ==> '=' !in pair.0 && pair.0 + "=" + pair.1 == piece
  {
    match IndexOf(piece, '=')
    case None => (piece, "")
    case Some(i) => assert piece == piece[..i] + "=" + piece[i + 1..]; (piece[..i], piece[i + 1..])
  }

  /** A piece whose name decodes to `name` and whose value decodes. */
  predicate PieceNamed(piece: string, name: string) {
    UrlDecode(SplitPair(piece).0) == Some(name) && UrlDecode(SplitPair(piece).1).Some?
  }

  /** No piece is a well-formed one under `name`. */
  predicate NoneNamed(pieces: seq<string>, name: string) {
    forall i :: 0 <= i < |pieces| ==> !PieceNamed(pieces[i], name)
  }

  /** A list whose head is not named `name` holds that name exactly where its tail does. */
  lemma NoneNamedTail(pieces: seq<string>, name: string)
    requires pieces != [] && !PieceNamed(pieces[0], name)
    ensures NoneNamed(pieces, name) <==> NoneNamed(pieces[1..], name)
  {
    if !NoneNamed(pieces[1..], name) {
      var i :| 0 <= i < |pieces[1..]| && PieceNamed(pieces[1..][i], name);
      assert pieces[i + 1] == pieces[1..][i];
    }
    if !NoneNamed(pieces, name) {
      var i :| 0 <= i < |pieces| && PieceNamed(pieces[i], name);
      assert pieces[1..][i - 1] == pieces[i];
    }
  }

  /** The first match in the tail of a list with an unnamed head is the first match of the list. */
  lemma FirstNamedTail(pieces: seq<string>, name: string, i: nat)
    requires pieces != [] && !PieceNamed(pieces[0], name)
    requires i < |pieces[1..]| && forall j :: 0 <= j < i ==> !PieceNamed(pieces[1..][j], name)
    ensures pieces[i + 1] == pieces[1..][i]
    ensures forall j :: 0 <= j < i + 1 ==> !PieceNamed(pieces[j], name)
  {
    forall j | 0 <= j < i + 1 ensures !PieceNamed(pieces[j], name) {
      if j > 0 { assert pieces[j] == pieces[1..][j - 1]; }
    }
  }

  /** The decoded value of the first well-formed piece whose decoded name is `name`. */
  function FirstValue(pieces: seq<string>, name: string): (r: Option<string>)
    ensures r.None? <==> NoneNamed(pieces, name)
    ensures r.Some? ==>
      exists i :: 0 <= i < |pieces| && PieceNamed(pieces[i], name) && r == UrlDecode(SplitPair(pieces[i]).1) &&
        forall j :: 0 <= j < i ==> !PieceNamed(pieces[j], name)
  {
    if pieces == [] then None
    else if PieceNamed(pieces[0], name) then UrlDecode(SplitPair(pieces[0]).1)
    else
      var r := FirstValue(pieces[1..], name);
      assert NoneNamed(pieces, name) <==> NoneNamed(pieces[1..], name) by { NoneNamedTail(pieces, name); }
      if r.Some? then
        var i :| 0 <= i < |pieces[1..]| && PieceNamed(pieces[1..][i], name) && r == UrlDecode(SplitPair(pieces[1..][i]).1) &&
          forall j :: 0 <= j < i ==> !PieceNamed(pieces[1..][j], name);
        FirstNamedTail(pieces, name, i);
        r
      else
        r
  }

  /** A leading piece under another name is skipped. */
  lemma FirstValueSkips(pieces: seq<string>, name: string, other: string)
    requires pieces != [] && UrlDecode(SplitPair(pieces[0]).0) == Some(other) && other != name
    ensures FirstValue(pieces, name) == FirstValue(pieces[1..], name)
  {
  }

  /** A leading well-formed piece under the name gives the value. */
  lemma FirstValueFinds(pieces: seq<string>, name: string)
    requires pieces != [] && UrlDecode(SplitPair(pieces[0]).0) == Some(name) && UrlDecode(SplitPair(pieces[0]).1).Some?
    ensures FirstValue(pieces, name) == UrlDecode(SplitPair(pieces[0]).1)
  {
  }

  /** `getParameter(name)` on a query string: pieces are separated by `&`. */
  function GetParameter(query: string, name: string): (r: Option<string>)
    ensures r.None? <==> NoneNamed(SplitAll(query, '&'), name)
    ensures '&' !in query ==> (r.Some? <==> PieceNamed(query, name))
    ensures '&' !in query && r.Some? ==> r == UrlDecode(SplitPair(query).1)
  {
    if '&' in query then FirstValue(SplitAll(query, '&'), name)
    else
      SplitAllNoSep(query, '&');
      FirstValue(SplitAll(query, '&'), name)
  }

  // ---------------------------------------------------------------------------
  // The interceptor
  // ---------------------------------------------------------------------------

  /** What the JWT decoder makes of a token: an exception, or a token with its `sub` claim (possibly absent). */
  datatype Decoded = Invalid | Valid(sub: Option<string>)

  const Unauthorized := 401

  /** The token the interceptor reads: the `token` parameter of a servlet request, else null. */
  function TokenOf(servlet: bool, query: string): (token: Option<string>)
    ensures token.Some? ==> servlet
    ensures servlet ==>
      (token.None? <==> NoneNamed(SplitAll(query, '&'), "token"))
  {
    if servlet then GetParameter(query, "token") else None
  }

  /** The exchange of one handshake: the session attributes it fills and the response status it sets. */
  class Handshake {
    var attributes: map<string, Option<string>>
    var status: Option<int>

    constructor (attributes: map<string, Option<string>>)
      ensures this.attributes == attributes && status == None
    {
      this.attributes := attributes;
      status := None;
    }

    /**
     * `beforeHandshake`: a missing or blank token, or one the decoder rejects, means 401
     * and no upgrade; a decoded token stores its subject as `userId`. Only the token
     * decides: the `userId` parameter is never read.
     */
    method BeforeHandshake(servlet: bool, query: string, decode: string -> Decoded) returns (accepted: bool)
      modifies this
      ensures accepted <==>
        TokenOf(servlet, query).Some? && !JavaIsBlank(TokenOf(servlet, query).value) &&
        decode(TokenOf(servlet, query).value).Valid?
      ensures accepted ==>
        attributes == old(attributes)["userId" := decode(TokenOf(servlet, query).value).sub] && status == old(status)
      ensures !accepted ==> attributes == old(attributes) && status == Some(Unauthorized)
    {
      var token := TokenOf(servlet, query);
      if token.None? || JavaIsBlank(token.value) {
        status := Some(Unauthorized);
        return false;
      }
      var jwt := decode(token.value);
      if jwt.Invalid? {
        status := Some(Unauthorized);
        return false;
      }
      attributes := attributes["userId" := jwt.sub];
      return true;
    }
  }

  // ---------------------------------------------------------------------------
  // The client's connect URL, read by the server
  // ---------------------------------------------------------------------------

  /** An escape of an ASCII byte decodes to that character, ahead of whatever follows. */
  lemma DecodeEscape(c: int, rest: string)
    requires 0 <= c < 0x80
    ensures UrlDecode(['%', ChatSocketClient.HexDigit(c / 16), ChatSocketClient.HexDigit(c % 16)] + rest) ==
      (match UrlDecode(rest) case None => None case Some(r) => Some([c as char] + r))
  {
    var s := ['%', ChatSocketClient.HexDigit(c / 16), ChatSocketClient.HexDigit(c % 16)] + rest;
    HexDigitValue(c / 16);
    HexDigitValue(c % 16);
    assert s[1] == ChatSocketClient.HexDigit(c / 16) && s[2] == ChatSocketClient.HexDigit(c % 16);
    assert s[3..] == rest;
  }

  /** A character other than `%` and `+` decodes to itself, ahead of whatever follows. */
  lemma DecodePlainChar(c: char, rest: string)
    requires c != '%' && c != '+'
    ensures UrlDecode([c] + rest) == (match UrlDecode(rest) case None => None case Some(r) => Some([c] + r))
  {
    assert ([c] + rest)[1..] == rest;
  }

  /** `encodeURIComponent` of an ASCII code point is one escape. */
  lemma PercentAscii(c: int)
    requires 0 <= c < 0x80
    ensures ChatSocketClient.PercentBytes(ChatSocketClient.Utf8(c)) ==
      ['%', ChatSocketClient.HexDigit(c / 16), ChatSocketClient.HexDigit(c % 16)]
  {
    assert ChatSocketClient.Utf8(c) == [c];
    assert [c][1..] == [];
  }

  /** What `encodeURIComponent` writes for a leading unreserved character. */
  lemma EncodeUnreservedHead(s: string)
    requires s != [] && ChatSocketClient.IsUnreserved(s[0])
    ensures ChatSocketClient.EncodeURIComponent(s) == [s[0]] + ChatSocketClient.EncodeURIComponent(s[1..])
  {
  }

  /** What `encodeURIComponent` writes for any other leading ASCII character. */
  lemma EncodeEscapedHead(s: string)
    requires s != [] && s[0] as int < 0x80 && !ChatSocketClient.IsUnreserved(s[0])
    ensures ChatSocketClient.EncodeURIComponent(s) ==
      ['%', ChatSocketClient.HexDigit(s[0] as int / 16), ChatSocketClient.HexDigit(s[0] as int % 16)] +
      ChatSocketClient.EncodeURIComponent(s[1..])
  {
    PercentAscii(s[0] as int);
  }

  /** Decoding undoes `encodeURIComponent` on ASCII text. */
  lemma {:induction false} DecodeEncodeAscii(s: string)
    requires forall i :: 0 <= i < |s| ==> s[i] as int < 0x80
    ensures UrlDecode(ChatSocketClient.EncodeURIComponent(s)) == Some(s)
  {
    if s != [] {
      var rest := ChatSocketClient.EncodeURIComponent(s[1..]);
      DecodeEncodeAscii(s[1..]);
      if ChatSocketClient.IsUnreserved(s[0]) {
        EncodeUnreservedHead(s);
        DecodePlainChar(s[0], rest);
      } else {
        EncodeEscapedHead(s);
        DecodeEscape(s[0] as int, rest);
      }
      assert [s[0]] + s[1..] == s;
    }
  }

  /** Encoded text has no `&`, so it stays in one query piece. */
  lemma EncodedHasNoAmpersand(s: string)
    ensures '&' !in ChatSocketClient.EncodeURIComponent(s)
  {
  }

  /** The server sees exactly the pieces the client joined, provided the user ids hold no `&`. */
  lemma ConnectQueryPieces(t: ChatSocketClient.Target)
    requires '&' !in t.currentUserId && '&' !in t.targetUserId
    ensures SplitAll(ChatSocketClient.ConnectQuery(t), '&') == ChatSocketClient.ConnectParams(t)
  {
    var ps := ChatSocketClient.ConnectParams(t);
    assert '&' !in "userId=" && '&' !in "targetUserId=" && '&' !in "token=";
    if Truthy(t.token) {
      EncodedHasNoAmpersand(t.token.value);
    }
    SplitJoin(ps, '&');
  }

  /** A piece `name=value` whose name has no `=`, `%` or `+` is read under that name. */
  lemma PairName(name: string, value: string)
    requires '=' !in name && '%' !in name && '+' !in name
    ensures SplitPair(name + "=" + value) == (name, value)
    ensures UrlDecode(SplitPair(name + "=" + value).0) == Some(name)
  {
    var p := name + "=" + value;
    assert p[|name|] == '=' && p[..|name|] == name;
    assert IndexOf(p, '=') == Some(|name|);
    assert p[|name| + 1..] == value;
    UrlDecodePlain(name);
  }

  /**
   * The server reads the token the client put in the connect URL, provided the user ids
   * hold no `&` and the token is ASCII (a JWT is).
   */
  lemma ClientTokenReachesServer(t: ChatSocketClient.Target)
    requires '&' !in t.currentUserId && '&' !in t.targetUserId
    requires Truthy(t.token) && forall i :: 0 <= i < |t.token.value| ==> t.token.value[i] as int < 0x80
    ensures TokenOf(true, ChatSocketClient.ConnectQuery(t)) == t.token
  {
    ConnectQueryPieces(t);
    var ps := ChatSocketClient.ConnectParams(t);
    UserIdPiece(t);
    TargetPiece(t);
    assert "userId" != "token" && "targetUserId" != "token";
    TokenPiece(t);
    assert ps == [ps[0], ps[1], ps[2]];
    ThirdPieceIsToken(ps[0], ps[1], ps[2], "userId", "targetUserId");
  }

  /** A client that sends no token is refused with 401, whatever its user ids claim. */
  lemma NoTokenIsRefused(t: ChatSocketClient.Target)
    requires '&' !in t.currentUserId && '&' !in t.targetUserId
    requires !Truthy(t.token)
    ensures TokenOf(true, ChatSocketClient.ConnectQuery(t)) == None
  {
    ConnectQueryPieces(t);
    var ps := ChatSocketClient.ConnectParams(t);
    UserIdPiece(t);
    TargetPiece(t);
    assert "userId" != "token" && "targetUserId" != "token";
    assert ps == [ps[0], ps[1]];
    NoTokenPiece(ps[0], ps[1], "userId", "targetUserId");
  }

  /** The first piece is read under the name `userId`. */
  lemma UserIdPiece(t: ChatSocketClient.Target)
    ensures UrlDecode(SplitPair(ChatSocketClient.ConnectParams(t)[0]).0) == Some("userId")
  {
    var name := "userId";
    assert '=' !in name && '%' !in name && '+' !in name;
    assert name + "=" == "userId=";
    assert name + "=" + t.currentUserId == ChatSocketClient.ConnectParams(t)[0];
    PairName(name, t.currentUserId);
  }

  /** The second piece is read under the name `targetUserId`. */
  lemma TargetPiece(t: ChatSocketClient.Target)
    ensures UrlDecode(SplitPair(ChatSocketClient.ConnectParams(t)[1]).0) == Some("targetUserId")
  {
    var name := "targetUserId";
    assert '=' !in name && '%' !in name && '+' !in name;
    assert name + "=" == "targetUserId=";
    assert name + "=" + t.targetUserId == ChatSocketClient.ConnectParams(t)[1];
    PairName(name, t.targetUserId);
  }

  /** The third piece, when sent, is the token under its own name, and decodes back to it. */
  lemma TokenPiece(t: ChatSocketClient.Target)
    requires Truthy(t.token) && forall i :: 0 <= i < |t.token.value| ==> t.token.value[i] as int < 0x80
    ensures UrlDecode(SplitPair(ChatSocketClient.ConnectParams(t)[2]).0) == Some("token")
    ensures UrlDecode(SplitPair(ChatSocketClient.ConnectParams(t)[2]).1) == t.token
  {
    var enc := ChatSocketClient.EncodeURIComponent(t.token.value);
    var name := "token";
    assert '=' !in name && '%' !in name && '+' !in name;
    assert name + "=" == "token=";
    assert name + "=" + enc == ChatSocketClient.ConnectParams(t)[2];
    PairName(name, enc);
    DecodeEncodeAscii(t.token.value);
  }

  /** Two pieces under other names, then a well-formed token piece. */
  lemma ThirdPieceIsToken(a: string, b: string, c: string, n1: string, n2: string)
    requires UrlDecode(SplitPair(a).0) == Some(n1) && n1 != "token"
    requires UrlDecode(SplitPair(b).0) == Some(n2) && n2 != "token"
    requires UrlDecode(SplitPair(c).0) == Some("token") && UrlDecode(SplitPair(c).1).Some?
    ensures FirstValue([a, b, c], "token") == UrlDecode(SplitPair(c).1)
  {
    FirstValueSkips([a, b, c], "token", n1);
    assert [a, b, c][1..] == [b, c];
    FirstValueSkips([b, c], "token", n2);
    assert [b, c][1..] == [c];
    FirstValueFinds([c], "token");
  }

  /** Two pieces under other names hold no token. */
  lemma NoTokenPiece(a: string, b: string, n1: string, n2: string)
    requires UrlDecode(SplitPair(a).0) == Some(n1) && n1 != "token"
    requires UrlDecode(SplitPair(b).0) == Some(n2) && n2 != "token"
    ensures FirstValue([a, b], "token") == None
  {
    FirstValueSkips([a, b], "token", n1);
    assert [a, b][1..] == [b];
    FirstValueSkips([b], "token", n2);
    assert [b][1..] == [];
  }
}
