/** The Snowflake connection settings read from the environment: how the account
    identifier is normalised and which variables must be present. */
module SnowflakeConfig {
  import opened Wrappers
  import opened JsString
  import JsValue

  // ---------------------------------------------------------------- account

  const ACCOUNT_SUFFIX := ".snowflakecomputing.com"

  /** `/^p/i` for a pattern of plain ASCII characters. */
  predicate StartsWithIgnoreCase(s: string, p: string) {
    |p| <= |s| && AsciiEqualIgnoreCase(s[..|p|], p)
  }

  /** `/p$/i` for a pattern of plain ASCII characters. */
  predicate EndsWithIgnoreCase(s: string, p: string) {
    |p| <= |s| && AsciiEqualIgnoreCase(s[|s| - |p|..], p)
  }

  /** `.replace(/^https?:\/\//i, '')` */
  function StripScheme(s: string): (r: string)
    ensures |r| <= |s| && r == s[|s| - |r|..]
  {
    if StartsWithIgnoreCase(s, "https://") then s[8..]
    else if StartsWithIgnoreCase(s, "http://") then s[7..]
    else s
  }

  /** `.replace(/\.snowflakecomputing\.com$/i, '')` */
  function StripAccountSuffix(s: string): (r: string)
    ensures |r| <= |s| && r == s[..|r|]
  {
    if EndsWithIgnoreCase(s, ACCOUNT_SUFFIX) then s[..|s| - |ACCOUNT_SUFFIX|] else s
  }

  /** True when no character of `s` ends a line. */
  predicate SingleLine(s: string) {
    forall i :: 0 <= i < |s| ==> !IsLineTerminator(s[i])
  }

  /** Where `/\/.*$/` first matches: the first `/` that is followed by no line
      terminator (`.` does not match one and `$` is end of input). */
  function PathStart(s: string): (r: Option<nat>)
    ensures r.Some? ==> r.value < |s| && s[r.value] == '/' && SingleLine(s[r.value + 1..])
  {
    if s == [] then None
    else if s[0] == '/' && SingleLine(s[1..]) then Some(0)
    else match PathStart(s[1..])
      case None => None
      case Some(i) => Some(i + 1)
  }

  /** `.replace(/\/.*$/, '')` */
  function CutPath(s: string): string {
    match PathStart(s)
    case None => s
    case Some(i) => s[..i]
  }

  /** `normalizeAccount(value)`: trimmed, scheme dropped, host suffix dropped, path
      dropped, each step applied once and in this order. */
  function NormalizeAccount(value: string): string {
    CutPath(StripAccountSuffix(StripScheme(Trim(value))))
  }

  /** The text of `s` before its first `/`, or all of it. */
  function BeforeSlash(s: string): (r: string)
    ensures '/' !in r
  {
    if s == [] || s[0] == '/' then [] else [s[0]] + BeforeSlash(s[1..])
  }

  lemma SingleLineTail(s: string)
    requires s != [] && SingleLine(s)
    ensures SingleLine(s[1..])
  {
    forall i | 0 <= i < |s[1..]| ensures !IsLineTerminator(s[1..][i]) { assert s[1..][i] == s[i + 1]; }
  }

  /** On a single-line string the path cut stops at the first `/`. */
  lemma {:induction false} CutPathAtFirstSlash(s: string)
    requires SingleLine(s)
    ensures CutPath(s) == BeforeSlash(s)
  {
    if s != [] {
      SingleLineTail(s);
      if s[0] != '/' {
        CutPathAtFirstSlash(s[1..]);
        match PathStart(s[1..])
        case None =>
        case Some(i) => assert s[..i + 1] == [s[0]] + s[1..][..i];
      }
    }
  }

  /** A slice of a single-line string is single-line. */
  lemma SingleLineSlice(s: string, i: nat, j: nat)
    requires SingleLine(s) && i <= j <= |s|
    ensures SingleLine(s[i..j])
  {
    forall k | 0 <= k < j - i ensures !IsLineTerminator(s[i..j][k]) { assert s[i..j][k] == s[i + k]; }
  }

  /** A single-line account value never keeps a `/`. */
  lemma NormalizedAccountHasNoSlash(value: string)
    requires SingleLine(value)
    ensures '/' !in NormalizeAccount(value)
  {
    var ts := TrimStart(value);
    SingleLineSlice(value, |value| - |ts|, |value|);
    var t := TrimEnd(ts);
    SingleLineSlice(ts, 0, |t|);
    var a := StripScheme(t);
    SingleLineSlice(t, |t| - |a|, |t|);
    var u := StripAccountSuffix(a);
    SingleLineSlice(a, 0, |u|);
    CutPathAtFirstSlash(u);
  }

  /** A string without a `/` is kept whole. */
  lemma {:induction false} NoSlashKept(s: string)
    requires '/' !in s
    ensures BeforeSlash(s) == s
  {
    if s != [] {
      assert s[0] in s;
      assert forall k :: 0 <= k < |s[1..]| ==> s[1..][k] == s[k + 1];
      NoSlashKept(s[1..]);
    }
  }

  /** No scheme is found in a string whose fifth character is not a colon. */
  lemma NoSchemeWithoutColon(h: string)
    requires |h| > 6 && h[4] != ':' && h[5] != ':'
    ensures StripScheme(h) == h
  {
    if |h| >= 8 { assert h[..8][5] == h[5]; assert AsciiFold(h[5]) != AsciiFold("https://"[5]); }
    assert h[..7][4] == h[4];
    assert AsciiFold(h[4]) != AsciiFold("http://"[4]);
  }

  /** A scheme `/^https?:\/\//i` accepts: `http://` or `https://` in any mix of cases. */
  predicate IsUrlScheme(scheme: string) {
    AsciiEqualIgnoreCase(scheme, "https://") || AsciiEqualIgnoreCase(scheme, "http://")
  }

  /** `http://` and `https://`, spelt in any mix of cases, are dropped whole, whatever follows. */
  lemma SchemeDropped(scheme: string, h: string)
    requires IsUrlScheme(scheme)
    ensures StripScheme(scheme + h) == h
  {
    var s := scheme + h;
    assert s[..|scheme|] == scheme;
    if !AsciiEqualIgnoreCase(scheme, "https://") {
      if |s| >= 8 {
        assert s[..8][4] == scheme[4];
        assert AsciiFold(s[..8][4]) != AsciiFold("https://"[4]);
      }
      assert !StartsWithIgnoreCase(s, "https://");
    }
  }

  /** The host suffix, in any case, is dropped whole. */
  lemma SuffixDropped(account: string)
    ensures StripAccountSuffix(account + ACCOUNT_SUFFIX) == account
  {
    var h := account + ACCOUNT_SUFFIX;
    assert h[|h| - |ACCOUNT_SUFFIX|..] == ACCOUNT_SUFFIX;
    assert h[..|account|] == account;
  }

  /** The four steps of the normalisation, taken one at a time. */
  lemma NormalizeSteps(value: string, unschemed: string, host: string, account: string)
    requires Trim(value) == value && StripScheme(value) == unschemed
    requires StripAccountSuffix(unschemed) == host && CutPath(host) == account
    ensures NormalizeAccount(value) == account
  {
  }

  /** A host name free of `:`, `/` and line breaks that opens with a non-blank. */
  predicate PlainHost(account: string) {
    && account != [] && !IsSpace(account[0])
    && forall i :: 0 <= i < |account| ==> account[i] != '/' && account[i] != ':' && !IsLineTerminator(account[i])
  }

  /** A plain host followed by the host suffix has no colon where a scheme would. */
  lemma HostHasNoScheme(account: string)
    requires PlainHost(account)
    ensures |account + ACCOUNT_SUFFIX| > 6
    ensures (account + ACCOUNT_SUFFIX)[4] != ':' && (account + ACCOUNT_SUFFIX)[5] != ':'
  {
    var h := account + ACCOUNT_SUFFIX;
    assert h[4] != ':' && h[5] != ':' by {
      if |account| <= 4 { assert h[4] == ACCOUNT_SUFFIX[4 - |account|]; } else { assert h[4] == account[4]; }
      if |account| <= 5 { assert h[5] == ACCOUNT_SUFFIX[5 - |account|]; } else { assert h[5] == account[5]; }
    }
  }

  /** The account URL keeps no blank to trim. */
  lemma HostUrlTrimmed(scheme: string, account: string)
    requires scheme == "" || IsUrlScheme(scheme)
    requires PlainHost(account)
    ensures Trim(scheme + (account + ACCOUNT_SUFFIX)) == scheme + (account + ACCOUNT_SUFFIX)
  {
    var s := scheme + (account + ACCOUNT_SUFFIX);
    assert s[|s| - 1] == 'm';
    assert s[0] == (if scheme == "" then account[0] else scheme[0]);
    assert scheme != "" ==> AsciiFold(scheme[0]) == 'H';
    JsValue.NoSpaceTrim(s);
  }

  /** A plain host is not cut. */
  lemma PlainHostNotCut(account: string)
    requires PlainHost(account)
    ensures CutPath(account) == account
  {
    assert SingleLine(account);
    CutPathAtFirstSlash(account);
    NoSlashKept(account);
  }

  /** The account as it appears in an account URL: `https://<account>.snowflakecomputing.com`
      gives back `<account>`, and so does the bare host name. */
  lemma AccountFromHostName(scheme: string, account: string)
    requires scheme == "" || IsUrlScheme(scheme)
    requires PlainHost(account)
    ensures NormalizeAccount(scheme + account + ACCOUNT_SUFFIX) == account
  {
    assert scheme + account + ACCOUNT_SUFFIX == scheme + (account + ACCOUNT_SUFFIX);
    if scheme == "" {
      assert scheme + (account + ACCOUNT_SUFFIX) == account + ACCOUNT_SUFFIX;
      AccountFromBareHost(account);
    } else {
      AccountFromSchemedHost(scheme, account);
    }
  }

  lemma AccountFromBareHost(account: string)
    requires PlainHost(account)
    ensures NormalizeAccount(account + ACCOUNT_SUFFIX) == account
  {
    var h := account + ACCOUNT_SUFFIX;
    HostUrlTrimmed("", account);
    assert "" + h == h;
    HostHasNoScheme(account);
    NoSchemeWithoutColon(h);
    SuffixDropped(account);
    PlainHostNotCut(account);
    NormalizeSteps(h, h, account, account);
  }

  lemma AccountFromSchemedHost(scheme: string, account: string)
    requires IsUrlScheme(scheme)
    requires PlainHost(account)
    ensures NormalizeAccount(scheme + (account + ACCOUNT_SUFFIX)) == account
  {
    var h := account + ACCOUNT_SUFFIX;
    HostUrlTrimmed(scheme, account);
    SchemeDropped(scheme, h);
    SuffixDropped(account);
    PlainHostNotCut(account);
    NormalizeSteps(scheme + h, h, account, account);
  }

  /** A string ending in `/` and a dot-free tail does not end with the host suffix. */
  lemma NoSuffixAfterPath(s: string, path: string)
    requires |s| > |path| && s[|s| - |path| - 1] == '/' && s[|s| - |path|..] == path && '.' !in path
    ensures !EndsWithIgnoreCase(s, ACCOUNT_SUFFIX)
  {
    if |s| >= |ACCOUNT_SUFFIX| {
      var w := s[|s| - |ACCOUNT_SUFFIX|..];
      if |path| >= |ACCOUNT_SUFFIX| {
        assert w[0] == path[|path| - |ACCOUNT_SUFFIX|];
        assert AsciiFold(w[0]) != AsciiFold(ACCOUNT_SUFFIX[0]);
      } else {
        var k := |ACCOUNT_SUFFIX| - |path| - 1;
        assert w[k] == '/';
        assert AsciiFold(w[k]) != AsciiFold(ACCOUNT_SUFFIX[k]);
      }
    }
  }

  /** A plain host followed by the host suffix holds no `/` and no line break. */
  lemma HostWithSuffixPlain(account: string)
    requires PlainHost(account)
    ensures '/' !in account + ACCOUNT_SUFFIX && SingleLine(account + ACCOUNT_SUFFIX)
  {
    var h := account + ACCOUNT_SUFFIX;
    forall i | 0 <= i < |h| ensures h[i] != '/' && !IsLineTerminator(h[i]) {
      if i < |account| { assert h[i] == account[i]; } else { assert h[i] == ACCOUNT_SUFFIX[i - |account|]; }
    }
  }

  /** Two single-line strings joined by `/` are single-line. */
  lemma SingleLineJoin(a: string, b: string)
    requires SingleLine(a) && SingleLine(b)
    ensures SingleLine(a + "/" + b)
  {
    var s := a + "/" + b;
    forall i | 0 <= i < |s| ensures !IsLineTerminator(s[i]) {
      if i > |a| { assert s[i] == b[i - |a| - 1]; } else if i < |a| { assert s[i] == a[i]; }
    }
  }

  /** The host suffix is only removed at the very end, before the path is cut: an
      account written with a trailing path keeps the suffix. */
  lemma SuffixKeptBeforePath(account: string, path: string)
    requires PlainHost(account)
    requires path != [] && !IsSpace(path[|path| - 1]) && SingleLine(path) && '.' !in path
    ensures NormalizeAccount(account + ACCOUNT_SUFFIX + "/" + path) == account + ACCOUNT_SUFFIX
  {
    var h := account + ACCOUNT_SUFFIX;
    var s := h + "/" + path;
    assert account + ACCOUNT_SUFFIX + "/" + path == s;
    assert s[0] == account[0] && s[|s| - 1] == path[|path| - 1];
    JsValue.NoSpaceTrim(s);
    HostHasNoScheme(account);
    assert s[4] == h[4] && s[5] == h[5];
    NoSchemeWithoutColon(s);
    assert s[|s| - |path| - 1] == '/' && s[|s| - |path|..] == path;
    NoSuffixAfterPath(s, path);
    HostWithSuffixPlain(account);
    SingleLineJoin(h, path);
    CutPathAtFirstSlash(s);
    NoSlashBefore(h, path);
    NormalizeSteps(s, s, s, h);
  }

  /** `BeforeSlash` stops at the first `/`. */
  lemma {:induction false} NoSlashBefore(a: string, b: string)
    requires '/' !in a
    ensures BeforeSlash(a + "/" + b) == a
  {
    if a != [] {
      assert a[0] in a;
      assert forall k :: 0 <= k < |a[1..]| ==> a[1..][k] == a[k + 1];
      assert (a + "/" + b)[1..] == a[1..] + "/" + b;
      NoSlashBefore(a[1..], b);
    }
  }

  // ---------------------------------------------------------------- connection settings

  /** The connection settings: every value as the environment holds it, except the
      account, which is normalised (an unset account normalises the empty string). */
  datatype ConnectionSettings = ConnectionSettings(
    account: string,
    username: Option<string>,
    password: Option<string>,
    warehouse: Option<string>,
    database: Option<string>,
    schema: Option<string>,
    role: Option<string>)

  function EnvValue(env: map<string, string>, name: string): Option<string> {
    if name in env then Some(env[name]) else None
  }

  function Settings(env: map<string, string>): (c: ConnectionSettings)
    ensures c.account == NormalizeAccount(EnvValue(env, "SNOWFLAKE_ACCOUNT").GetOr(""))
    ensures c.role == EnvValue(env, "SNOWFLAKE_ROLE")
  {
    ConnectionSettings(
      NormalizeAccount(EnvValue(env, "SNOWFLAKE_ACCOUNT").GetOr("")),
      EnvValue(env, "SNOWFLAKE_USERNAME"),
      EnvValue(env, "SNOWFLAKE_PASSWORD"),
      EnvValue(env, "SNOWFLAKE_WAREHOUSE"),
      EnvValue(env, "SNOWFLAKE_DATABASE"),
      EnvValue(env, "SNOWFLAKE_SCHEMA"),
      EnvValue(env, "SNOWFLAKE_ROLE"))
  }

  // ---------------------------------------------------------------- validation

  const REQUIRED_VARS: seq<string> := [
    "SNOWFLAKE_ACCOUNT", "SNOWFLAKE_USERNAME", "SNOWFLAKE_PASSWORD",
    "SNOWFLAKE_WAREHOUSE", "SNOWFLAKE_DATABASE", "SNOWFLAKE_SCHEMA"]

  const MISSING_PREFIX := "\U{274C} Faltan variables de entorno de Snowflake: "

  /** `!process.env[key]`: unset, or set to the empty string. */
  predicate Unset(env: map<string, string>, name: string) {
    name !in env || env[name] == ""
  }

  /** `names.filter((key) => !process.env[key])` */
  function MissingOf(env: map<string, string>, names: seq<string>): (r: seq<string>)
    ensures |r| <= |names|
  {
    if names == [] then []
    else (if Unset(env, names[0]) then [names[0]] else []) + MissingOf(env, names[1..])
  }

  /** `a` is `b` with some elements dropped, the rest kept in order. */
  predicate IsSubsequence(a: seq<string>, b: seq<string>) {
    if a == [] then true
    else if b == [] then false
    else (a[0] == b[0] && IsSubsequence(a[1..], b[1..])) || IsSubsequence(a, b[1..])
  }

  /** The missing list holds exactly the unset names, in the order they are required. */
  lemma {:induction false} MissingOfMembers(env: map<string, string>, names: seq<string>)
    ensures forall n :: n in MissingOf(env, names) <==> n in names && Unset(env, n)
    ensures IsSubsequence(MissingOf(env, names), names)
  {
    if names != [] {
      MissingOfMembers(env, names[1..]);
      var rest := MissingOf(env, names[1..]);
      if Unset(env, names[0]) {
        assert MissingOf(env, names) == [names[0]] + rest;
        assert ([names[0]] + rest)[1..] == rest;
      } else {
        assert MissingOf(env, names) == rest;
        SubsequenceOfTail(rest, names);
      }
      assert names == [names[0]] + names[1..];
    }
  }

  lemma SubsequenceOfTail(a: seq<string>, b: seq<string>)
    requires b != [] && IsSubsequence(a, b[1..])
    ensures IsSubsequence(a, b)
  {
  }

  /** `validateSnowflakeConfig()`: fails with one message naming every missing
      variable, in the order they are required. */
  function ValidateSnowflakeConfig(env: map<string, string>): (r: Result<bool>)
    ensures r.Ok? <==> MissingOf(env, REQUIRED_VARS) == []
    ensures r.Err? ==> r.error == MISSING_PREFIX + Join(MissingOf(env, REQUIRED_VARS), ", ")
  {
    var missing := MissingOf(env, REQUIRED_VARS);
    if |missing| > 0 then Err(MISSING_PREFIX + Join(missing, ", ")) else Ok(true)
  }

  /** Validation fails exactly when one of the six required variables is unset or empty. */
  lemma ValidationFailsIffUnset(env: map<string, string>)
    ensures ValidateSnowflakeConfig(env).Err? <==> exists n :: n in REQUIRED_VARS && Unset(env, n)
  {
    MissingOfMembers(env, REQUIRED_VARS);
    var missing := MissingOf(env, REQUIRED_VARS);
    if missing != [] {
      assert missing[0] in missing;
    }
  }

  /** Variables outside the required list, `SNOWFLAKE_ROLE` among them, have no
      bearing on validation. */
  lemma {:induction false} OptionalVarIgnored(env: map<string, string>, name: string, value: string, names: seq<string>)
    requires name !in names
    ensures MissingOf(env[name := value], names) == MissingOf(env, names)
    ensures MissingOf(env - {name}, names) == MissingOf(env, names)
  {
    if names != [] {
      assert forall k :: 0 <= k < |names[1..]| ==> names[1..][k] == names[k + 1];
      OptionalVarIgnored(env, name, value, names[1..]);
    }
  }

  lemma RoleNotRequired(env: map<string, string>, role: string)
    ensures ValidateSnowflakeConfig(env["SNOWFLAKE_ROLE" := role]) == ValidateSnowflakeConfig(env)
    ensures ValidateSnowflakeConfig(env - {"SNOWFLAKE_ROLE"}) == ValidateSnowflakeConfig(env)
  {
    OptionalVarIgnored(env, "SNOWFLAKE_ROLE", role, REQUIRED_VARS);
  }
}
