/** The SDK v2 half of the provider: the description builder installed at
    start-up, the names it registers, the refresh-token attribute and
    `configure`. */
module SdkProviderConfig {
  import opened Common
  import opened Api
  import ProviderConfig

  /** Go's `unicode.IsSpace`. */
  predicate IsSpace(c: char) {
    c == '\t' || c == '\n' || c == '\U{000B}' || c == '\U{000C}' || c == '\r' || c == ' '
    || c == '\U{0085}' || c == '\U{00A0}' || c == '\U{1680}' || ('\U{2000}' <= c <= '\U{200A}')
    || c == '\U{2028}' || c == '\U{2029}' || c == '\U{202F}' || c == '\U{205F}' || c == '\U{3000}'
  }

  /** `s` without its leading white space. */
  function TrimLeft(s: string): (r: string)
    ensures |r| <= |s| && r == s[|s| - |r|..]
    ensures r == [] || !IsSpace(r[0])
    ensures forall i :: 0 <= i < |s| - |r| ==> IsSpace(s[i])
  {
    if s == [] || !IsSpace(s[0]) then s else TrimLeft(s[1..])
  }

  /** `s` without its trailing white space. */
  function TrimRight(s: string): (r: string)
    ensures |r| <= |s| && r == s[..|r|]
    ensures r == [] || !IsSpace(r[|r| - 1])
    ensures forall i :: |r| <= i < |s| ==> IsSpace(s[i])
  {
    if s == [] || !IsSpace(s[|s| - 1]) then s else TrimRight(s[..|s| - 1])
  }

  /** `r` is what is left of `s` once a run of white space in front, up to
      index `k`, and a run at the end are cut: it begins and ends with a
      character that is not white space. */
  predicate TrimmedTo(s: string, k: nat, r: string) {
    && k <= |s| - |r| && r == s[k..k + |r|]
    && (r == [] || (!IsSpace(r[0]) && !IsSpace(r[|r| - 1])))
    && (forall i :: 0 <= i < k ==> IsSpace(s[i]))
    && (forall i :: k + |r| <= i < |s| ==> IsSpace(s[i]))
  }

  /** `strings.TrimSpace`: the middle of `s` between a run of white space
      in front and a run at the end. */
  function TrimSpace(s: string): (r: string)
    ensures TrimmedTo(s, |s| - |TrimLeft(s)|, r)
  {
    var l := TrimLeft(s);
    var r := TrimRight(l);
    TrimBothEnds(s, l, r);
    r
  }

  /** Cutting white space in front, then white space at the end, cuts one
      run at each end of `s`. */
  lemma TrimBothEnds(s: string, l: string, r: string)
    requires |l| <= |s| && l == s[|s| - |l|..]
    requires l == [] || !IsSpace(l[0])
    requires forall i :: 0 <= i < |s| - |l| ==> IsSpace(s[i])
    requires |r| <= |l| && r == l[..|r|]
    requires r == [] || !IsSpace(r[|r| - 1])
    requires forall i :: |r| <= i < |l| ==> IsSpace(l[i])
    ensures TrimmedTo(s, |s| - |l|, r)
  {
    var k := |s| - |l|;
    assert r == s[k..k + |r|];
    forall i | k + |r| <= i < |s|
      ensures IsSpace(s[i])
    {
      assert s[i] == l[i - k];
    }
    assert r != [] ==> r[0] == l[0];
  }

  /** `%v` of a schema default that is a string, an integer or a boolean: a
      string as it is, an integer as the decimal text that reads back as it,
      a boolean as `true` or `false`. */
  function FormatDefault(v: Value): (r: string)
    requires v.Str? || v.Int? || v.Bool?
    ensures v.Str? ==> r == v.s
    ensures v.Int? ==> SignedValue(r) == v.i && |r| > 0 && (r[0] == '-' <==> v.i < 0)
    ensures v.Bool? ==> (r == "true" <==> v.b) && (r == "false" <==> !v.b)
  {
    match v
    case Str(s) => s
    case Int(i) =>
      if i < 0 then
        DecimalRoundTrip(-i);
        assert ("-" + Decimal(-i))[1..] == Decimal(-i);
        "-" + Decimal(-i)
      else
        DecimalRoundTrip(i);
        Decimal(i)
    case Bool(b) => if b then "true" else "false"
  }

  /** The decimal digits of `n`, most significant first, without leading
      zeros. */
  function Decimal(n: nat): (r: string)
    ensures |r| >= 1 && forall i :: 0 <= i < |r| ==> '0' <= r[i] <= '9'
    ensures |r| > 1 ==> r[0] != '0'
    decreases n
  {
    if n < 10 then [Digit(n)] else Decimal(n / 10) + [Digit(n % 10)]
  }

  function Digit(d: nat): (c: char)
    requires d < 10
    ensures '0' <= c <= '9' && c as int - '0' as int == d
  {
    "0123456789"[d]
  }

  /** The number a string of decimal digits denotes. */
  function DecimalValue(s: string): int {
    if s == [] then 0 else DecimalValue(s[..|s| - 1]) * 10 + (s[|s| - 1] as int - '0' as int)
  }

  /** The number a decimal text with an optional minus sign denotes. */
  function SignedValue(s: string): int {
    if s != [] && s[0] == '-' then -DecimalValue(s[1..]) else DecimalValue(s)
  }

  /** The digits of `n` read back as `n`. */
  lemma {:induction false} DecimalRoundTrip(n: nat)
    ensures DecimalValue(Decimal(n)) == n
    decreases n
  {
    if n >= 10 {
      DecimalRoundTrip(n / 10);
      var r := Decimal(n);
      assert r[..|r| - 1] == Decimal(n / 10);
    }
  }

  function DefaultSentence(v: Value): string
    requires v.Str? || v.Int? || v.Bool?
  {
    " Defaults to `" + FormatDefault(v) + "`."
  }

  /** The description builder: the description, followed by the default
      when the attribute has one, with surrounding white space trimmed. */
  method DescribeSchema(description: string, default: Option<Value>) returns (desc: string)
    requires default.Some? ==> default.value.Str? || default.value.Int? || default.value.Bool?
    ensures default.None? ==> desc == TrimSpace(description)
    ensures default.Some? ==> desc == TrimSpace(description + DefaultSentence(default.value))
  {
    desc := description;
    if default.Some? {
      desc := desc + DefaultSentence(default.value);
    }
    desc := TrimSpace(desc);
  }

  /** Text that ends in a character other than white space keeps its end
      when leading white space is trimmed from a longer text. */
  lemma {:induction false} TrimLeftAppend(x: string, y: string)
    requires y != [] && !IsSpace(y[0])
    ensures TrimLeft(x + y) == TrimLeft(x) + y
  {
    if x != [] && IsSpace(x[0]) {
      assert (x + y)[1..] == x[1..] + y;
      TrimLeftAppend(x[1..], y);
    } else if x == [] {
      assert x + y == y;
    }
  }

  /** Trimming text that ends in a non-space part trims only in front. */
  lemma TrimSpaceKeepsTail(x: string, y: string)
    requires y != [] && !IsSpace(y[0]) && !IsSpace(y[|y| - 1])
    ensures TrimSpace(x + y) == TrimLeft(x) + y
  {
    TrimLeftAppend(x, y);
    var left := TrimLeft(x) + y;
    assert left[|left| - 1] == y[|y| - 1];
  }

  /** With a default, the described text ends with the default sentence
      (less its leading space), whatever white space the description holds. */
  lemma DescriptionEndsWithDefault(description: string, v: Value)
    requires v.Str? || v.Int? || v.Bool?
    ensures var d := TrimSpace(description + DefaultSentence(v));
      var tail := DefaultSentence(v)[1..];
      |tail| <= |d| && d[|d| - |tail|..] == tail
  {
    var sentence := DefaultSentence(v);
    var tail := sentence[1..];
    assert sentence[0] == ' ' && tail[0] == 'D' && tail[|tail| - 1] == '.';
    assert description + sentence == (description + [' ']) + tail;
    TrimSpaceKeepsTail(description + [' '], tail);
  }

  /** Trimming twice trims no more. */
  lemma TrimSpaceIdempotent(s: string)
    ensures TrimSpace(TrimSpace(s)) == TrimSpace(s)
  {
    var t := TrimSpace(s);
    if t != [] {
      assert !IsSpace(t[0]) by {
        var l := TrimLeft(s);
        assert t == l[..|t|];
      }
    }
  }

  /** The names this half registers. */
  const DataSourceNames: set<string> := {"rhsm_allocation", "rhsm_allocation_entitlement", "rhsm_allocation_pools"}
  const ResourceNames: set<string> := {"rhsm_allocation", "rhsm_allocation_entitlement", "rhsm_allocation_manifest"}

  /** The provider's acceptance tests serve this half and the framework
      half side by side behind one mux server, which refuses a type name
      that both register: the names are disjoint, and every name of this
      half carries the provider's `rhsm_` prefix too. */
  lemma HalvesServeDistinctNames()
    ensures forall n :: n in ProviderConfig.Resources() ==> n !in ResourceNames
    ensures forall n :: n in ProviderConfig.DataSources() ==> n !in DataSourceNames
    ensures forall n :: n in ResourceNames + DataSourceNames ==>
      |n| > 5 && n[..5] == ProviderConfig.ProviderTypeName + "_"
  {
  }

  /** `d.Get("refresh_token")`: the configured value, else the variable
      RHSM_REFRESH_TOKEN, else "". */
  function RefreshToken(config: Option<string>, env: map<string, string>): (r: string)
    ensures config.Some? ==> r == config.value
    ensures config.None? ==> r == ProviderConfig.Getenv(env, ProviderConfig.RefreshTokenEnv)
  {
    match config
    case Some(s) => s
    case None => ProviderConfig.Getenv(env, ProviderConfig.RefreshTokenEnv)
  }

  /** `configure`: the refresh token is exchanged whatever its value; a
      failed exchange yields its error and no client. */
  method Configure(config: Option<string>, env: map<string, string>, token: ApiResult<Token>)
    returns (client: Option<ApiClient>, diags: seq<string>, exchanged: seq<string>)
    ensures exchanged == [RefreshToken(config, env)]
    ensures token.Failed? ==> client.None? && diags == [token.message]
    ensures token.Ok? ==> client == Some(ApiClient(token.body.accessToken, token.body.tokenType)) && diags == []
  {
    var refreshToken := RefreshToken(config, env);
    exchanged := [refreshToken];
    if token.Failed? {
      return None, [token.message], exchanged;
    }
    client := Some(ApiClient(token.body.accessToken, token.body.tokenType));
    diags := [];
  }
}
