/** The site header: its search box, which sends the trimmed query to the
    catalogue, and its two navigation links, highlighted on an exact path
    match only. */
module Header {
  import opened Common
  import Navbar

  /** The characters `encodeURIComponent` leaves as they are. */
  predicate IsUnreserved(c: char)
  {
    IsAsciiUpper(c) || IsAsciiLower(c) || IsDigit(c)
    || c == '-' || c == '_' || c == '.' || c == '!' || c == '~' || c == '*' || c == '\'' || c == '(' || c == ')'
  }

  predicate IsUpperHexDigit(c: char)
  {
    IsDigit(c) || ('A' <= c <= 'F')
  }

  /** The UTF-8 encoding of a character's code point. */
  function Utf8(c: char): (bytes: seq<nat>)
    ensures 1 <= |bytes| <= 4
    ensures forall i :: 0 <= i < |bytes| ==> bytes[i] < 256
    ensures c as int < 0x80 ==> bytes == [c as int]
  {
    var v := c as int;
    if v < 0x80 then [v]
    else if v < 0x800 then [0xC0 + v / 64, 0x80 + v % 64]
    else if v < 0x10000 then [0xE0 + v / 4096, 0x80 + (v / 64) % 64, 0x80 + v % 64]
    else [0xF0 + v / 262144, 0x80 + (v / 4096) % 64, 0x80 + (v / 64) % 64, 0x80 + v % 64]
  }

  function HexDigit(d: nat): (c: char)
    requires d < 16
    ensures IsUpperHexDigit(c)
  {
    if d < 10 then (d + '0' as int) as char else (d - 10 + 'A' as int) as char
  }

  /** `%XX` for one byte, with upper-case hex digits. */
  function Percent(b: nat): (s: string)
    requires b < 256
    ensures |s| == 3 && s[0] == '%' && IsUpperHexDigit(s[1]) && IsUpperHexDigit(s[2])
  {
    ['%', HexDigit(b / 16), HexDigit(b % 16)]
  }

  function PercentAll(bytes: seq<nat>): (s: string)
    requires forall i :: 0 <= i < |bytes| ==> bytes[i] < 256
    ensures |s| == 3 * |bytes|
    ensures forall i :: 0 <= i < |s| ==> s[i] == '%' || IsUpperHexDigit(s[i])
  {
    if bytes == [] then [] else Percent(bytes[0]) + PercentAll(bytes[1..])
  }

  /** `encodeURIComponent`: unreserved characters are kept, every other
      character becomes the percent-escapes of its UTF-8 bytes. */
  function EncodeURIComponent(s: string): (r: string)
    ensures forall i :: 0 <= i < |r| ==> IsUnreserved(r[i]) || r[i] == '%' || IsUpperHexDigit(r[i])
  {
    if s == [] then []
    else (if IsUnreserved(s[0]) then [s[0]] else PercentAll(Utf8(s[0]))) + EncodeURIComponent(s[1..])
  }

  /** A text made of unreserved characters is sent as it is. */
  lemma {:induction false} UnreservedUnchanged(s: string)
    requires forall i :: 0 <= i < |s| ==> IsUnreserved(s[i])
    ensures EncodeURIComponent(s) == s
  {
    if s != [] {
      UnreservedUnchanged(s[1..]);
    }
  }

  /** The encoded term holds none of the characters that end or split a
      query parameter, so the whole query reaches `search`. */
  lemma EncodedTermIsOneParameter(s: string)
    ensures forall i :: 0 <= i < |EncodeURIComponent(s)| ==>
      EncodeURIComponent(s)[i] !in {'&', '=', '#', '+', ' ', '?', '/'}
  {
  }

  lemma SpaceIsEscaped()
    ensures EncodeURIComponent("a b") == "a%20b"
  {
    var s := "a b";
    assert s[1..] == " b" && s[1..][1..] == "b";
    assert Utf8(' ') == [32];
    assert Percent(32) == "%20";
    assert PercentAll([32]) == "%20";
    UnreservedUnchanged("b");
  }

  /** `handleSearch`: a query that is blank after trimming does nothing;
      otherwise the browser goes to the catalogue with the trimmed query,
      encoded, as its `search` parameter. */
  function SearchTarget(query: string): (url: Option<string>)
    ensures url.None? <==> forall i :: 0 <= i < |query| ==> IsSpace(query[i])
    ensures url.Some? ==> url.value == "/products?search=" + EncodeURIComponent(Trim(query))
  {
    var term := Trim(query);
    if term != "" then Some("/products?search=" + EncodeURIComponent(term)) else None
  }

  /** Surrounding white space never reaches the URL. */
  lemma TrimmedBeforeSending(query: string)
    requires SearchTarget(query).Some?
    ensures SearchTarget(query) == SearchTarget(Trim(query))
  {
    TrimIdempotent(query);
  }

  lemma TrimIdempotent(s: string)
    ensures Trim(Trim(s)) == Trim(s)
  {
    var t := Trim(s);
    if t != [] {
      TrimStartNoLeadingSpace(t);
      TrimEndNoTrailingSpace(t);
    }
  }

  lemma TrimStartNoLeadingSpace(t: string)
    requires t != [] && !IsSpace(t[0])
    ensures TrimStart(t) == t
  {
  }

  lemma TrimEndNoTrailingSpace(t: string)
    requires t != [] && !IsSpace(t[|t| - 1])
    ensures TrimEnd(t) == t
  {
  }

  const NavItems: seq<(string, string)> := [("Home", "/"), ("Products", "/products")]

  /** Here a link is highlighted on its own path only. */
  predicate IsActive(pathname: string, href: string)
  {
    pathname == href
  }

  /** On a product page the header highlights nothing while the navigation
      bar highlights Products. */
  lemma HeaderIsExactOnly()
    ensures !IsActive("/products/lamp", NavItems[1].1) && !IsActive("/products/lamp", NavItems[0].1)
    ensures Navbar.IsActive("/products/lamp", Navbar.Links[1])
  {
    Navbar.ProductPageHighlightsProducts();
  }
}
