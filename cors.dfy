/** The origin allow-list check and the fixed CORS headers of the create handler. */
module Cors {
  import opened Http

  const AllowOriginHeader := "Access-Control-Allow-Origin"
  const AllowMethodsHeader := "Access-Control-Allow-Methods"
  const AllowMethodsValue := "GET, POST, OPTIONS"
  const AllowHeadersHeader := "Access-Control-Allow-Headers"
  const AllowHeadersValue := "Content-Type"
  // The handler spells this header name with a lower-case "control".
  const MaxAgeHeader := "Access-control-max-age"
  const MaxAgeValue := "3600"

  /** The value the allow-list parameter takes when it is not configured. */
  const DefaultAllowedOrigins := "https://smartics.com.mx,http://localhost:3300"
  const ProductionOrigin := "https://smartics.com.mx"
  const LocalOrigin := "http://localhost:3300"

  /** Position of the first `c` in `s`, or |s| when `s` has none. */
  function IndexOf(s: string, c: char): (i: nat)
    ensures i <= |s|
    ensures i < |s| ==> s[i] == c
    ensures forall k :: 0 <= k < i ==> s[k] != c
  {
    if |s| == 0 then 0
    else if s[0] == c then 0
    else 1 + IndexOf(s[1..], c)
  }

  /** Concatenation of `parts` with `sep` between neighbours (JavaScript's Array.prototype.join). */
  function Join(parts: seq<string>, sep: char): (s: string)
  {
    if |parts| == 0 then ""
    else if |parts| == 1 then parts[0]
    else parts[0] + [sep] + Join(parts[1..], sep)
  }

  /**
   * JavaScript's String.prototype.split with a one-character separator: the pieces
   * between separators, in order, empty pieces included; never an empty list.
   */
  function Split(s: string, sep: char): (parts: seq<string>)
    ensures |parts| >= 1
    ensures forall p :: p in parts ==> sep !in p
    ensures Join(parts, sep) == s
    decreases |s|
  {
    var k := IndexOf(s, sep);
    if k == |s| then
      assert s[..k] == s;
      [s]
    else
      var rest := Split(s[k + 1..], sep);
      assert ([s[..k]] + rest)[1..] == rest;
      assert s[..k] + [sep] + s[k + 1..] == s by {
        assert s == s[..k] + [s[k]] + s[k + 1..];
      }
      [s[..k]] + rest
  }

  /** Array.prototype.filter(Boolean) on strings: drops the empty strings. */
  function DropEmpty(parts: seq<string>): (r: seq<string>)
    ensures forall x :: x in r <==> x in parts && x != ""
    ensures |r| <= |parts|
  {
    if |parts| == 0 then []
    else (if parts[0] == "" then [] else [parts[0]]) + DropEmpty(parts[1..])
  }

  /**
   * `x` occurs in `s` as a whole field: a run of characters without `sep`, bounded on
   * each side by `sep` or by an end of `s`. This describes the pieces of a split
   * without computing them.
   */
  ghost predicate IsField(s: string, sep: char, x: string)
  {
    exists i, j :: 0 <= i <= j <= |s| && s[i..j] == x && sep !in x
      && (i == 0 || s[i - 1] == sep) && (j == |s| || s[j] == sep)
  }

  /** The fields of a string without separator: the string itself. */
  lemma FieldsWithoutSep(s: string, sep: char, x: string)
    requires sep !in s
    ensures IsField(s, sep, x) <==> x == s
  {
    if x == s {
      assert s[0..|s|] == x;
    }
    if IsField(s, sep, x) {
      var i, j :| 0 <= i <= j <= |s| && s[i..j] == x && sep !in x
        && (i == 0 || s[i - 1] == sep) && (j == |s| || s[j] == sep);
      assert i == 0 && j == |s|;
      assert x == s[..];
    }
  }

  /** The first field of a string that has a separator at `k` and none before. */
  lemma FirstField(s: string, sep: char, k: nat)
    requires k < |s| && s[k] == sep && sep !in s[..k]
    ensures IsField(s, sep, s[..k])
  {
    assert s[0..k] == s[..k];
  }

  /** A field of the text after a separator is a field of the whole string. */
  lemma FieldOfRest(s: string, sep: char, k: nat, x: string)
    requires k < |s| && s[k] == sep
    requires IsField(s[k + 1..], sep, x)
    ensures IsField(s, sep, x)
  {
    var rest := s[k + 1..];
    var i, j :| 0 <= i <= j <= |rest| && rest[i..j] == x && sep !in x
      && (i == 0 || rest[i - 1] == sep) && (j == |rest| || rest[j] == sep);
    assert s[i + k + 1..j + k + 1] == x;
    assert i + k + 1 - 1 == k || s[i + k + 1 - 1] == sep;
  }

  /** A field that starts the string ends at the first separator. */
  lemma LeadingField(s: string, sep: char, k: nat, j: nat)
    requires k < |s| && s[k] == sep && forall m :: 0 <= m < k ==> s[m] != sep
    requires j <= |s| && sep !in s[..j] && (j == |s| || s[j] == sep)
    ensures j == k
  {
  }

  /** A field that starts after a separator lies after the first one. */
  lemma LaterField(s: string, sep: char, k: nat, i: nat, j: nat)
    requires k < |s| && s[k] == sep && forall m :: 0 <= m < k ==> s[m] != sep
    requires 0 < i <= j <= |s| && sep !in s[i..j]
    requires s[i - 1] == sep && (j == |s| || s[j] == sep)
    ensures IsField(s[k + 1..], sep, s[i..j])
  {
    var rest := s[k + 1..];
    assert i - 1 >= k;
    var i', j' := i - k - 1, j - k - 1;
    assert rest[i'..j'] == s[i..j];
    assert i' == 0 || rest[i' - 1] == s[i - 1];
    assert j' == |rest| || rest[j'] == s[j];
  }

  /** A field of `s` is its first field or a field of the text after the first separator. */
  lemma FieldSplitsAtFirstSep(s: string, sep: char, k: nat, x: string)
    requires k < |s| && s[k] == sep && forall m :: 0 <= m < k ==> s[m] != sep
    requires IsField(s, sep, x)
    ensures x == s[..k] || IsField(s[k + 1..], sep, x)
  {
    var i, j :| 0 <= i <= j <= |s| && s[i..j] == x && sep !in x
      && (i == 0 || s[i - 1] == sep) && (j == |s| || s[j] == sep);
    if i == 0 {
      assert s[..j] == x;
      LeadingField(s, sep, k, j);
    } else {
      LaterField(s, sep, k, i, j);
    }
  }

  /** The pieces of a split are exactly the fields of the string. */
  lemma {:induction false} SplitFields(s: string, sep: char, x: string)
    ensures x in Split(s, sep) <==> IsField(s, sep, x)
    decreases |s|
  {
    var k := IndexOf(s, sep);
    if k == |s| {
      assert Split(s, sep) == [s];
      FieldsWithoutSep(s, sep, x);
    } else {
      var rest := s[k + 1..];
      assert sep !in s[..k];
      SplitFields(rest, sep, x);
      assert Split(s, sep) == [s[..k]] + Split(rest, sep);
      FirstField(s, sep, k);
      if x in Split(rest, sep) {
        FieldOfRest(s, sep, k, x);
      }
      if IsField(s, sep, x) {
        FieldSplitsAtFirstSep(s, sep, k, x);
      }
    }
  }

  /** `split(",").filter(Boolean)` applied to the configured allow-list string. */
  function ParseAllowList(config: string): (origins: seq<string>)
    ensures forall o :: o in origins ==> o != "" && ',' !in o
  {
    DropEmpty(Split(config, ','))
  }

  /** The allowed origins are exactly the non-empty comma-delimited fields, untrimmed. */
  lemma AllowListEntries(config: string, x: string)
    ensures x in ParseAllowList(config) <==> x != "" && IsField(config, ',', x)
  {
    SplitFields(config, ',', x);
  }

  /** `allowedOrigins.includes(origin)`: an absent origin header matches nothing. */
  predicate OriginAllowed(allowed: seq<string>, origin: Option<string>): (b: bool)
    ensures b <==> exists k :: 0 <= k < |allowed| && Some(allowed[k]) == origin
  {
    origin.Some? && origin.value in allowed
  }

  /** The headers the create handler sets before it looks at the method. */
  function CorsHeaders(allowed: seq<string>, origin: Option<string>): (h: map<string, string>)
    ensures AllowOriginHeader in h <==> OriginAllowed(allowed, origin)
    ensures AllowOriginHeader in h ==> h[AllowOriginHeader] == origin.value
    ensures AllowMethodsHeader in h && h[AllowMethodsHeader] == AllowMethodsValue
    ensures AllowHeadersHeader in h && h[AllowHeadersHeader] == AllowHeadersValue
    ensures MaxAgeHeader in h && h[MaxAgeHeader] == MaxAgeValue
    ensures h.Keys <= {AllowOriginHeader, AllowMethodsHeader, AllowHeadersHeader, MaxAgeHeader}
  {
    var fixed := map[AllowMethodsHeader := AllowMethodsValue,
                     AllowHeadersHeader := AllowHeadersValue,
                     MaxAgeHeader := MaxAgeValue];
    if OriginAllowed(allowed, origin) then fixed[AllowOriginHeader := origin.value] else fixed
  }

  /**
   * The allow-origin header is present exactly when the request origin is a non-empty
   * comma-delimited field of the configured string, and then it echoes that origin.
   */
  lemma EchoesOnlyListedOrigin(config: string, origin: Option<string>)
    ensures var h := CorsHeaders(ParseAllowList(config), origin);
      (AllowOriginHeader in h <==> origin.Some? && origin.value != "" && IsField(config, ',', origin.value))
      && (AllowOriginHeader in h ==> h[AllowOriginHeader] == origin.value)
  {
    if origin.Some? {
      AllowListEntries(config, origin.value);
    }
  }

  /** Two origins joined by a separator split back into exactly those two. */
  lemma SplitTwo(a: string, b: string, sep: char)
    requires sep !in a && sep !in b
    ensures Split(a + [sep] + b, sep) == [a, b]
  {
    var s := a + [sep] + b;
    assert forall m :: 0 <= m < |a| ==> s[m] == a[m];
    assert s[|a|] == sep;
    assert IndexOf(s, sep) == |a|;
    assert s[..|a|] == a && s[|a| + 1..] == b;
    assert Split(b, sep) == [b];
  }

  /** The default configuration allows exactly the production site and the local server. */
  lemma DefaultAllowList()
    ensures ParseAllowList(DefaultAllowedOrigins) == [ProductionOrigin, LocalOrigin]
  {
    assert ',' !in ProductionOrigin && ',' !in LocalOrigin;
    assert DefaultAllowedOrigins == ProductionOrigin + [','] + LocalOrigin;
    SplitTwo(ProductionOrigin, LocalOrigin, ',');
    assert [ProductionOrigin, LocalOrigin][1..] == [LocalOrigin];
    assert DropEmpty([LocalOrigin]) == [LocalOrigin];
  }

  /** No trimming: a space after a comma stays part of the next origin. */
  lemma NoTrimming()
    ensures ParseAllowList("a, b") == ["a", " b"]
  {
    assert IndexOf("a, b", ',') == 1;
    assert "a, b"[2..] == " b";
    assert IndexOf(" b", ',') == 2;
    assert "a, b"[..1] == "a";
  }
}
