/** Small helpers of the newest revision (`src/lib/util.rs`) and the
    script-argument parser shared with the oldest one (`src/util.rs`). */
module Util {
  import opened Wrappers
  import opened Errors
  import Strings

  /** `hash_string` (Crockford base32 of the key's bytes in the newest
      revision, the SHA-256 hex digest in the oldest). Only determinism is
      relied upon, so it is a parameter; properties that need distinct keys
      to stay distinct ask for injectivity explicitly. */
  type Hasher = string -> string

  ghost predicate Injective(h: Hasher) {
    forall a, b :: h(a) == h(b) ==> a == b
  }

  /** Every piece after the first, each followed by "=". */
  function Rejoined(pieces: seq<string>): (r: string)
    ensures |pieces| == 1 ==> r == pieces[0] + "="
  {
    if |pieces| == 0 then "" else pieces[0] + "=" + Rejoined(pieces[1..])
  }

  /** One `KEY=VALUE` script argument as `args_to_map` reads it: the key
      is the text before the first '='; exactly one '=' gives the text
      after it, none gives no value, and two or more give every later
      piece followed by "=". */
  function ParseArg(arg: string): (r: (string, Option<string>))
    ensures forall j :: 0 <= j < |r.0| ==> r.0[j] != '='
    ensures r.0 <= arg && (|r.0| < |arg| ==> arg[|r.0|] == '=')
    ensures r.1.None? <==> forall j :: 0 <= j < |arg| ==> arg[j] != '='
  {
    var parts := Strings.Split(arg, '=');
    Strings.SplitJoin(arg, '=');
    KeyIsFirstPiece(parts);
    if |parts| == 2 then (parts[0], Some(parts[1]))
    else if |parts| > 1 then (parts[0], Some(Rejoined(parts[1..])))
    else (parts[0], None)
  }

  lemma KeyIsFirstPiece(parts: seq<string>)
    requires |parts| >= 1
    ensures var s := Strings.JoinWith(parts, "=");
            && parts[0] <= s
            && (|parts| > 1 ==> |parts[0]| < |s| && s[|parts[0]|] == '=')
            && (|parts| == 1 ==> s == parts[0])
  {
    if |parts| > 1 {
      var s := Strings.JoinWith(parts, "=");
      assert s == parts[0] + "=" + Strings.JoinWith(parts[1..], "=");
      assert s[|parts[0]|] == '=';
    }
  }

  /** "K=V" with no other '=' maps K to V. */
  lemma ParseArgOneEquals(k: string, v: string)
    requires forall j :: 0 <= j < |k| ==> k[j] != '='
    requires forall j :: 0 <= j < |v| ==> v[j] != '='
    ensures ParseArg(k + "=" + v) == (k, Some(v))
  {
    Strings.SplitAtFirst(k, '=', v);
    Strings.SplitNoSeparator(v, '=');
  }

  /** "K=a=b" maps K to "a=b=": the trailing '=' the loop appends is kept. */
  lemma ParseArgTwoEquals(k: string, a: string, b: string)
    requires forall j :: 0 <= j < |k| ==> k[j] != '='
    requires forall j :: 0 <= j < |a| ==> a[j] != '='
    requires forall j :: 0 <= j < |b| ==> b[j] != '='
    ensures ParseArg(k + "=" + a + "=" + b) == (k, Some(a + "=" + b + "="))
  {
    assert k + "=" + a + "=" + b == k + "=" + (a + "=" + b);
    Strings.SplitAtFirst(k, '=', a + "=" + b);
    Strings.SplitAtFirst(a, '=', b);
    Strings.SplitNoSeparator(b, '=');
    var parts := Strings.Split(k + "=" + a + "=" + b, '=');
    assert parts == [k, a, b];
    assert parts[1..] == [a, b];
    assert [a, b][1..] == [b];
    assert Rejoined([b]) == b + "=";
    assert Rejoined([a, b]) == a + "=" + (b + "=");
    assert a + "=" + (b + "=") == a + "=" + b + "=";
  }

  /** The corrected reading of one argument: the key is the text before
      the first '=' and the value everything after it, so the argument is
      always the key, '=' and the value again. */
  function ParseArgAtFirst(arg: string): (r: (string, Option<string>))
    ensures forall j :: 0 <= j < |r.0| ==> r.0[j] != '='
    ensures r.1.None? <==> forall j :: 0 <= j < |arg| ==> arg[j] != '='
    ensures r.1.None? ==> r.0 == arg
    ensures r.1.Some? ==> arg == r.0 + "=" + r.1.value
  {
    var parts := Strings.Split(arg, '=');
    Strings.SplitJoin(arg, '=');
    KeyIsFirstPiece(parts);
    if |parts| == 1 then (parts[0], None)
    else
      assert Strings.JoinWith(parts, "=") == parts[0] + "=" + Strings.JoinWith(parts[1..], "=");
      (parts[0], Some(Strings.JoinWith(parts[1..], "=")))
  }

  /** Corrected, every value is read back whole, '=' included. */
  lemma ParseArgAtFirstRoundTrip(k: string, v: string)
    requires forall j :: 0 <= j < |k| ==> k[j] != '='
    ensures ParseArgAtFirst(k + "=" + v) == (k, Some(v))
  {
    var arg := k + "=" + v;
    assert arg[|k|] == '=';
    var r := ParseArgAtFirst(arg);
    assert r.1.Some?;
    assert arg == r.0 + "=" + r.1.value;
    assert forall j :: 0 <= j < |k| ==> arg[j] == k[j] && arg[j] != '=';
    assert forall j :: 0 <= j < |r.0| ==> arg[j] == r.0[j] && arg[j] != '=';
    assert arg[|r.0|] == '=';
    assert |r.0| == |k|;
    assert r.0 == arg[..|k|] == k;
    assert r.1.value == arg[|k| + 1..] == v;
  }

  /** Both readings agree on arguments with at most one '='. */
  lemma ParseArgAgreesOnOneEquals(k: string, v: string)
    requires forall j :: 0 <= j < |k| ==> k[j] != '='
    requires forall j :: 0 <= j < |v| ==> v[j] != '='
    ensures ParseArg(k + "=" + v) == ParseArgAtFirst(k + "=" + v)
    ensures ParseArg(k) == ParseArgAtFirst(k)
  {
    ParseArgOneEquals(k, v);
    ParseArgAtFirstRoundTrip(k, v);
    ParseArgNoEquals(k);
  }

  /** "K=a=b" as written gives "a=b=", not the "a=b" of the argument. */
  lemma ParseArgExample()
    ensures ParseArg("K=a=b") == ("K", Some("a=b="))
    ensures ParseArgAtFirst("K=a=b") == ("K", Some("a=b"))
  {
    assert "K" + "=" + "a" + "=" + "b" == "K=a=b" == "K" + "=" + "a=b";
    ParseArgTwoEquals("K", "a", "b");
    assert "a" + "=" + "b" + "=" == "a=b=";
    ParseArgAtFirstRoundTrip("K", "a=b");
  }

  /** An argument without '=' is a key with no value. */
  lemma ParseArgNoEquals(a: string)
    requires forall j :: 0 <= j < |a| ==> a[j] != '='
    ensures ParseArg(a) == (a, None)
  {
    Strings.SplitNoSeparator(a, '=');
  }

  /** `args_to_map`, with each argument read as the source reads it
      (`ParseArg`): every argument contributes its key, and no key comes
      from anywhere else. Which value a key keeps is
      `ArgsToMapLastWins`. */
  function ArgsToMap(args: seq<string>): (m: map<string, Option<string>>)
    ensures forall i :: 0 <= i < |args| ==> ParseArg(args[i]).0 in m
    ensures forall k :: k in m ==> exists i :: 0 <= i < |args| && ParseArg(args[i]).0 == k
    ensures args == [] ==> m == map[]
  {
    if |args| == 0 then map[]
    else
      var init := ArgsToMap(args[..|args| - 1]);
      var kv := ParseArg(args[|args| - 1]);
      assert forall i :: 0 <= i < |args| - 1 ==> args[..|args| - 1][i] == args[i];
      init[kv.0 := kv.1]
  }

  /** A key keeps the value of the last argument that names it. */
  lemma {:induction false} ArgsToMapLastWins(args: seq<string>, i: nat)
    requires i < |args|
    requires forall j :: i < j < |args| ==> ParseArg(args[j]).0 != ParseArg(args[i]).0
    ensures ArgsToMap(args)[ParseArg(args[i]).0] == ParseArg(args[i]).1
  {
    var init := args[..|args| - 1];
    if i < |args| - 1 {
      assert forall j :: i < j < |init| ==> init[j] == args[j];
      assert init[i] == args[i];
      ArgsToMapLastWins(init, i);
    }
  }

  /** The oldest revision's `args_to_map`, written as the loop it is; it
      reads each argument the same way and computes exactly the newest
      revision's map. */
  method ArgsToMapOldest(args: seq<string>) returns (m: map<string, Option<string>>)
    ensures m == ArgsToMap(args)
    ensures forall i :: 0 <= i < |args| ==> ParseArg(args[i]).0 in m
  {
    m := map[];
    var i := 0;
    while i < |args|
      invariant 0 <= i <= |args|
      invariant m == ArgsToMap(args[..i])
    {
      var kv := ParseArg(args[i]);
      assert args[..i + 1][..i] == args[..i];
      m := m[kv.0 := kv.1];
      i := i + 1;
    }
    assert args[..|args|] == args;
  }

  /** `to_lua_result`: an Ok value passes through unchanged and any error
      is wrapped as an external Lua error. */
  function ToLuaResult<T>(r: Result<T, Error>): (o: Result<T, Error>)
    ensures o.Ok? <==> r.Ok?
    ensures r.Ok? ==> o.value == r.value
    ensures r.Err? ==> o.error.External? && o.error.inner == r.error
  {
    match r
    case Ok(v) => Ok(v)
    case Err(e) => Err(External(e))
  }
}
