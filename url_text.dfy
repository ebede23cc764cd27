/** The string operations the authorization-URL builders rely on: the
    `k=v&k=v` concatenation both variants write by hand (no escaping), a reader
    of such query strings that serves as its inverse, and the first-occurrence
    replacement that `String.prototype.replace` performs with a string pattern. */
module UrlText {
  import opened Credentials

  /** The component login page both variants send the administrator to. */
  const LoginPage: string := "https://mp.weixin.qq.com" + "/cgi-bin/componentloginpage"
  /** The web-authorization consent page. */
  const OAuthPage: string := "https://open.weixin.qq.com" + "/connect/oauth2/authorize"
  /** The fragment that ends every consent URL. */
  const WechatRedirect: string := "#wechat_redirect"

  /** One `key=value` query parameter. */
  datatype Param = Param(key: string, value: string)

  function Field(p: Param): string
  {
    p.key + "=" + p.value
  }

  /** The parameters joined as `k1=v1&k2=v2&…`, with nothing escaped. */
  function Encode(ps: seq<Param>): string
  {
    if |ps| == 0 then ""
    else if |ps| == 1 then Field(ps[0])
    else Field(ps[0]) + "&" + Encode(ps[1..])
  }

  /** Encoding one more parameter at the end adds one separator and its field. */
  lemma {:induction false} EncodeSnoc(ps: seq<Param>, p: Param)
    requires |ps| >= 1
    ensures Encode(ps + [p]) == Encode(ps) + "&" + Field(p)
    decreases |ps|
  {
    var qs := ps + [p];
    assert qs[1..] == ps[1..] + [p];
    if |ps| > 1 {
      EncodeSnoc(ps[1..], p);
    }
  }

  /** A URL written as `page + "?k=" + v` starts a query with one parameter. */
  lemma StartQuery(page: string, lit: string, k: string, v: string)
    requires lit == "?" + k + "="
    ensures page + lit + v == page + "?" + Encode([Param(k, v)])
  {
  }

  /** A URL written as `url + "&k=" + v` extends its query by one parameter. */
  lemma ExtendQuery(base: string, ps: seq<Param>, url: string, lit: string, k: string, v: string)
    requires |ps| >= 1 && url == base + Encode(ps) && lit == "&" + k + "="
    ensures url + lit + v == base + Encode(ps + [Param(k, v)])
  {
    EncodeSnoc(ps, Param(k, v));
    AppendField(base, Encode(ps), k, v);
  }

  lemma AppendField(base: string, e: string, k: string, v: string)
    ensures base + e + ("&" + k + "=") + v == base + (e + "&" + (k + "=" + v))
  {
  }

  /** The separators of the login URL, as the builders write them. */
  lemma LoginLiterals()
    ensures "?component_appid=" == "?" + "component_appid" + "="
    ensures "&pre_auth_code=" == "&" + "pre_auth_code" + "="
    ensures "&redirect_uri=" == "&" + "redirect_uri" + "="
    ensures "&auth_type=" == "&" + "auth_type" + "="
  {
  }

  /** The separators of the consent URL, as the builders write them. */
  lemma OAuthLiterals()
    ensures "?appid=" == "?" + "appid" + "="
    ensures "&redirect_uri=" == "&" + "redirect_uri" + "="
    ensures "&response_type=" == "&" + "response_type" + "="
    ensures "&scope=" == "&" + "scope" + "="
  {
  }

  lemma OAuthTailLiterals()
    ensures "&response_type=code&scope=" == "&response_type=" + "code" + "&scope="
    ensures "&state=" == "&" + "state" + "="
    ensures "&component_appid=" == "&" + "component_appid" + "="
  {
  }

  /** Neither page holds a query or fragment mark. */
  lemma LoginPageMarks()
    ensures '?' !in LoginPage && '#' !in LoginPage
  {
    LoginPageLacks('?');
    LoginPageLacks('#');
  }

  lemma LoginPageLacks(mark: char)
    requires mark == '?' || mark == '#'
    ensures mark !in LoginPage
  {
  }

  lemma OAuthPageMarks()
    ensures '?' !in OAuthPage && '#' !in OAuthPage
  {
    OAuthPageLacks('?');
    OAuthPageLacks('#');
  }

  lemma OAuthPageLacks(mark: char)
    requires mark == '?' || mark == '#'
    ensures mark !in OAuthPage
  {
  }

  function Fields(ps: seq<Param>): seq<string>
  {
    if |ps| == 0 then [] else [Field(ps[0])] + Fields(ps[1..])
  }

  /** A parameter that survives the unescaped encoding: neither part holds a
      separator, and the key holds no `=`. */
  predicate Plain(p: Param)
  {
    '&' !in p.key && '&' !in p.value && '#' !in p.key && '#' !in p.value && '=' !in p.key
  }

  /** A key made of lower-case letters and underscores, as every key the
      builders write is. */
  predicate LowerIdent(k: string)
  {
    forall i :: 0 <= i < |k| ==> 'a' <= k[i] <= 'z' || k[i] == '_'
  }

  /** A value that the unescaped concatenation keeps intact. */
  predicate Clean(v: string)
  {
    '&' !in v && '#' !in v
  }

  lemma LowerIdentClean(v: string)
    requires LowerIdent(v)
    ensures Clean(v)
  {
  }

  lemma LowerIdentPlain(k: string, v: string)
    requires LowerIdent(k) && Clean(v)
    ensures Plain(Param(k, v))
  {
  }

  predicate AllPlain(ps: seq<Param>)
  {
    forall i :: 0 <= i < |ps| ==> Plain(ps[i])
  }

  /** The value given for `key` first in `ps`, if any. */
  function FirstValue(ps: seq<Param>, key: string): Option<string>
  {
    if |ps| == 0 then None
    else if ps[0].key == key then Some(ps[0].value)
    else FirstValue(ps[1..], key)
  }

  // ---------------------------------------------------------------------------
  // Reading a URL back

  /** The pieces of `s` between occurrences of `sep`, as `String.prototype.split` yields them. */
  function Split(s: string, sep: char): (parts: seq<string>)
    ensures |parts| >= 1
    decreases |s|
  {
    if |s| == 0 then [""]
    else
      var rest := Split(s[1..], sep);
      if s[0] == sep then [""] + rest else [[s[0]] + rest[0]] + rest[1..]
  }

  /** Everything after the first `c`; empty when there is none. */
  function AfterFirst(s: string, c: char): string
    decreases |s|
  {
    if |s| == 0 then ""
    else if s[0] == c then s[1..]
    else AfterFirst(s[1..], c)
  }

  /** Everything before the first `c`; all of `s` when there is none. */
  function Before(s: string, c: char): string
    decreases |s|
  {
    if |s| == 0 || s[0] == c then "" else [s[0]] + Before(s[1..], c)
  }

  /** The value of the first `key=value` field named `key`. */
  function Lookup(fields: seq<string>, key: string): Option<string>
  {
    if |fields| == 0 then None
    else if key + "=" <= fields[0] then Some(fields[0][|key| + 1..])
    else Lookup(fields[1..], key)
  }

  /** The raw text given for `key` in the query, which is what lies between
      the first `?` and the first `#`: the text between `key=` and the next
      `&`, with no percent-decoding and no `+` read as a space. */
  function ParamValue(url: string, key: string): Option<string>
  {
    Lookup(Split(Before(AfterFirst(url, '?'), '#'), '&'), key)
  }

  lemma {:induction false} SplitWithout(s: string, sep: char)
    requires sep !in s
    ensures Split(s, sep) == [s]
    decreases |s|
  {
    if |s| > 0 {
      SplitWithout(s[1..], sep);
      assert [s[0]] + s[1..] == s;
    }
  }

  lemma {:induction false} SplitAt(a: string, b: string, sep: char)
    requires sep !in a
    ensures Split(a + [sep] + b, sep) == [a] + Split(b, sep)
    decreases |a|
  {
    var s := a + [sep] + b;
    if |a| == 0 {
      assert s[1..] == b;
    } else {
      assert s[1..] == a[1..] + [sep] + b;
      SplitAt(a[1..], b, sep);
      assert [a[0]] + a[1..] == a;
    }
  }

  lemma {:induction false} SplitEncode(ps: seq<Param>)
    requires |ps| >= 1 && AllPlain(ps)
    ensures Split(Encode(ps), '&') == Fields(ps)
    decreases |ps|
  {
    assert Plain(ps[0]);
    if |ps| == 1 {
      SplitWithout(Field(ps[0]), '&');
    } else {
      assert AllPlain(ps[1..]) by {
        forall i | 0 <= i < |ps[1..]| ensures Plain(ps[1..][i]) { assert ps[1..][i] == ps[i + 1]; }
      }
      assert Encode(ps) == Field(ps[0]) + ['&'] + Encode(ps[1..]);
      SplitAt(Field(ps[0]), Encode(ps[1..]), '&');
      SplitEncode(ps[1..]);
    }
  }

  /** A field `k=v` starts with `key=` exactly when `k` is `key`. */
  lemma FieldPrefix(p: Param, key: string)
    requires '=' !in p.key && '=' !in key
    ensures key + "=" <= Field(p) <==> key == p.key
    ensures key == p.key ==> Field(p)[|key| + 1..] == p.value
  {
    var f := Field(p);
    if key + "=" <= f {
      // At the shorter of the two lengths one side holds '=', so neither key can be longer.
      var m := if |key| < |p.key| then |key| else |p.key|;
      assert (key + "=")[m] == f[m];
      assert |key| == |p.key|;
      assert key == (key + "=")[..|key|] == f[..|key|] == p.key;
    }
  }

  lemma {:induction false} LookupFields(ps: seq<Param>, key: string)
    requires AllPlain(ps) && '=' !in key
    ensures Lookup(Fields(ps), key) == FirstValue(ps, key)
    decreases |ps|
  {
    if |ps| > 0 {
      assert Plain(ps[0]);
      FieldPrefix(ps[0], key);
      assert AllPlain(ps[1..]) by {
        forall i | 0 <= i < |ps[1..]| ensures Plain(ps[1..][i]) { assert ps[1..][i] == ps[i + 1]; }
      }
      LookupFields(ps[1..], key);
    }
  }

  lemma {:induction false} AfterFirstSkips(a: string, b: string, c: char)
    requires c !in a
    ensures AfterFirst(a + [c] + b, c) == b
    decreases |a|
  {
    var s := a + [c] + b;
    if |a| == 0 {
      assert s[1..] == b;
    } else {
      assert s[1..] == a[1..] + [c] + b;
      AfterFirstSkips(a[1..], b, c);
    }
  }

  lemma {:induction false} BeforeStops(a: string, b: string, c: char)
    requires c !in a
    requires b == "" || b[0] == c
    ensures Before(a + b, c) == a
    decreases |a|
  {
    if |a| == 0 {
      assert a + b == b;
    } else {
      assert (a + b)[1..] == a[1..] + b;
      BeforeStops(a[1..], b, c);
      assert [a[0]] + a[1..] == a;
    }
  }

  /** Reading back a URL built as `page?k1=v1&…&kn=vn` followed by an optional
      fragment gives, for every key, the first value written for it. */
  lemma ParamValueOfUrl(page: string, ps: seq<Param>, fragment: string, key: string)
    requires '?' !in page
    requires |ps| >= 1 && AllPlain(ps) && '=' !in key
    requires fragment == "" || fragment[0] == '#'
    ensures ParamValue(page + "?" + Encode(ps) + fragment, key) == FirstValue(ps, key)
  {
    var q := Encode(ps);
    assert page + "?" + q + fragment == page + ['?'] + (q + fragment);
    AfterFirstSkips(page, q + fragment, '?');
    assert '#' !in q by {
      SplitEncode(ps);
      EncodeLacks(ps, '#');
    }
    BeforeStops(q, fragment, '#');
    SplitEncode(ps);
    LookupFields(ps, key);
  }

  /** The i-th parameter's value is the first one given for its key when no
      earlier parameter has that key. */
  lemma {:induction false} FirstValueAt(ps: seq<Param>, i: int)
    requires 0 <= i < |ps|
    requires forall j :: 0 <= j < i ==> ps[j].key != ps[i].key
    ensures FirstValue(ps, ps[i].key) == Some(ps[i].value)
    decreases i
  {
    if i > 0 {
      assert ps[0].key != ps[i].key;
      FirstValueAt(ps[1..], i - 1);
    }
  }

  /** Reading back the i-th parameter of a URL whose keys are all different. */
  lemma ParamOfUrl(page: string, ps: seq<Param>, fragment: string, i: int)
    requires '?' !in page
    requires AllPlain(ps) && 0 <= i < |ps|
    requires forall j :: 0 <= j < i ==> ps[j].key != ps[i].key
    requires fragment == "" || fragment[0] == '#'
    ensures ParamValue(page + "?" + Encode(ps) + fragment, ps[i].key) == Some(ps[i].value)
  {
    assert Plain(ps[i]);
    ParamValueOfUrl(page, ps, fragment, ps[i].key);
    FirstValueAt(ps, i);
  }

  /** No key occurs twice in `ps`. */
  predicate DistinctKeys(ps: seq<Param>)
  {
    forall i, j :: 0 <= j < i < |ps| ==> ps[j].key != ps[i].key
  }

  /** Reading back every parameter of a URL whose keys are all different. */
  lemma ParamsOfUrl(page: string, ps: seq<Param>, fragment: string, url: string)
    requires '?' !in page
    requires AllPlain(ps) && DistinctKeys(ps)
    requires fragment == "" || fragment[0] == '#'
    requires url == page + "?" + Encode(ps) + fragment
    ensures forall i :: 0 <= i < |ps| ==> ParamValue(url, ps[i].key) == Some(ps[i].value)
  {
    forall i | 0 <= i < |ps| ensures ParamValue(url, ps[i].key) == Some(ps[i].value) {
      ParamOfUrl(page, ps, fragment, i);
    }
  }

  lemma {:induction false} EncodeLacks(ps: seq<Param>, c: char)
    requires c != '=' && c != '&'
    requires forall i :: 0 <= i < |ps| ==> c !in ps[i].key && c !in ps[i].value
    ensures c !in Encode(ps)
    decreases |ps|
  {
    if |ps| > 1 {
      EncodeLacks(ps[1..], c);
    }
  }

  /** A value holding `&` splits its field in two: the query reads the same
      as one with the tail as a parameter of its own. */
  lemma EncodeSplitsValue(p0: Param, p1: Param, p2: Param, p3: Param, head: Param, tail: Param)
    requires Field(p2) == Field(head) + "&" + Field(tail)
    ensures Encode([p0, p1, p2, p3]) == Encode([p0, p1, head, tail, p3])
  {
    EncodeSnoc([p0], p1);
    assert [p0] + [p1] == [p0, p1];
    EncodeSnoc([p0, p1], p2);
    assert [p0, p1] + [p2] == [p0, p1, p2];
    EncodeSnoc([p0, p1, p2], p3);
    assert [p0, p1, p2] + [p3] == [p0, p1, p2, p3];
    EncodeSnoc([p0, p1], head);
    assert [p0, p1] + [head] == [p0, p1, head];
    EncodeSnoc([p0, p1, head], tail);
    assert [p0, p1, head] + [tail] == [p0, p1, head, tail];
    EncodeSnoc([p0, p1, head, tail], p3);
    assert [p0, p1, head, tail] + [p3] == [p0, p1, head, tail, p3];
  }

  /** The keys of the login URL are identifiers. */
  lemma LoginWordsAreIdents()
    ensures LowerIdent("component_appid") && LowerIdent("pre_auth_code")
    ensures LowerIdent("redirect_uri") && LowerIdent("auth_type")
  {
  }

  // ---------------------------------------------------------------------------
  // Percent-escaping of the separators

  /** One character as `encodeURIComponent` writes the three that matter to a
      query: `%`, `&` and `#`; any other character is kept. */
  function EscapeChar(ch: char): string
  {
    if ch == '%' then "%25" else if ch == '&' then "%26" else if ch == '#' then "%23" else [ch]
  }

  function Escape(v: string): string
  {
    if |v| == 0 then "" else EscapeChar(v[0]) + Escape(v[1..])
  }

  /** Percent-decoding of the three escapes `Escape` writes. */
  function Unescape(s: string): string
    decreases |s|
  {
    if |s| == 0 then ""
    else if |s| >= 3 && s[0] == '%' && s[1] == '2' && s[2] == '5' then "%" + Unescape(s[3..])
    else if |s| >= 3 && s[0] == '%' && s[1] == '2' && s[2] == '6' then "&" + Unescape(s[3..])
    else if |s| >= 3 && s[0] == '%' && s[1] == '2' && s[2] == '3' then "#" + Unescape(s[3..])
    else [s[0]] + Unescape(s[1..])
  }

  /** Decoding an escaped value gives the value back. */
  lemma {:induction false} EscapeRoundTrip(v: string)
    ensures Unescape(Escape(v)) == v
    decreases |v|
  {
    if |v| > 0 {
      EscapeRoundTrip(v[1..]);
      var rest := Escape(v[1..]);
      var e := Escape(v);
      assert e == EscapeChar(v[0]) + rest;
      if v[0] == '%' || v[0] == '&' || v[0] == '#' {
        assert e[3..] == rest;
      } else {
        assert e[1..] == rest;
      }
      assert v == [v[0]] + v[1..];
    }
  }

  /** An escaped value carries neither separator. */
  lemma {:induction false} EscapeClean(v: string)
    ensures Clean(Escape(v))
    decreases |v|
  {
    if |v| > 0 {
      EscapeClean(v[1..]);
      assert Escape(v) == EscapeChar(v[0]) + Escape(v[1..]);
    }
  }

  // ---------------------------------------------------------------------------
  // First-occurrence replacement

  predicate OccursAt(s: string, pat: string, i: int)
  {
    0 <= i && i + |pat| <= |s| && s[i..i + |pat|] == pat
  }

  /** The position of the first occurrence of `pat` in `s`, as `indexOf` finds it. */
  function IndexOf(s: string, pat: string): (r: Option<nat>)
    ensures r.Some? ==> OccursAt(s, pat, r.value)
    ensures r.Some? ==> forall j :: 0 <= j < r.value ==> !OccursAt(s, pat, j)
    ensures r.None? ==> forall j :: 0 <= j <= |s| ==> !OccursAt(s, pat, j)
    decreases |s|
  {
    if OccursAt(s, pat, 0) then Some(0)
    else if |s| == 0 then None
    else
      ShiftOccurrence(s, pat);
      match IndexOf(s[1..], pat)
      case None => None
      case Some(i) => Some(i + 1)
  }

  lemma ShiftOccurrence(s: string, pat: string)
    requires |s| > 0
    ensures forall j :: 1 <= j <= |s| ==> (OccursAt(s, pat, j) <==> OccursAt(s[1..], pat, j - 1))
  {
    forall j | 1 <= j <= |s| ensures OccursAt(s, pat, j) <==> OccursAt(s[1..], pat, j - 1) {
      if j + |pat| <= |s| {
        assert s[1..][j - 1..j - 1 + |pat|] == s[j..j + |pat|];
      }
    }
  }

  /** `s.replace(pat, rep)` with a string pattern: only the first occurrence is
      replaced, and `s` is returned as it is when there is none. */
  function ReplaceFirst(s: string, pat: string, rep: string): string
  {
    match IndexOf(s, pat)
    case None => s
    case Some(i) => s[..i] + rep + s[i + |pat|..]
  }

  /** Replacing a marker by `text + marker` inserts `text` just before the first
      occurrence of the marker and changes nothing else; without a marker the
      string is unchanged. */
  lemma InsertBeforeFirst(s: string, marker: string, text: string)
    ensures IndexOf(s, marker).None? ==> ReplaceFirst(s, marker, text + marker) == s
    ensures IndexOf(s, marker).Some? ==>
      ReplaceFirst(s, marker, text + marker)
      == s[..IndexOf(s, marker).value] + text + s[IndexOf(s, marker).value..]
  {
    var found := IndexOf(s, marker);
    if found.Some? {
      var i := found.value;
      var rest := s[i + |marker|..];
      assert s[i..] == marker + rest;
      calc {
        ReplaceFirst(s, marker, text + marker);
        s[..i] + (text + marker) + rest;
        s[..i] + text + (marker + rest);
        s[..i] + text + s[i..];
      }
    }
  }

  /** A marker that starts with a character absent from `a` is first found right after `a`. */
  lemma FirstOccurrenceAfter(a: string, marker: string, b: string)
    requires |marker| > 0 && marker[0] !in a
    ensures IndexOf(a + marker + b, marker) == Some(|a|)
  {
    var s := a + marker + b;
    assert s[|a|..|a| + |marker|] == marker;
    assert OccursAt(s, marker, |a|);
    forall j | 0 <= j < |a| ensures !OccursAt(s, marker, j) {
      assert s[j] == a[j];
      if j + |marker| <= |s| {
        assert s[j..j + |marker|][0] == s[j];
      }
    }
  }
}
