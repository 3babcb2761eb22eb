/**
 * Configuration lookup and parsing (configuration/EnvironmentProperties.kt): where a property's text
 * comes from, the environment-variable name derived from a property, the parsing of the worker and
 * master lists and of numbers, and the defaults of the settings the job bookkeeping reads.
 * The configuration file, the JVM system properties and the process environment are given as maps.
 */
module EnvironmentProperties {
  import opened Wrappers
  import opened HttpExceptions

  // ---- where a property comes from ----

  /**
   * `System.getProperty(key, default)`: the property when it is set, otherwise the default. Its
   * result type is nullable, but with a default given it is never null.
   */
  function SystemGetProperty(system: map<string, string>, key: string, default: string): (r: Option<string>)
    ensures r.Some?
    ensures r.value == if key in system then system[key] else default
  {
    if key in system then Some(system[key]) else Some(default)
  }

  /**
   * `getProperty`: the configuration file's value when it has the property; otherwise the system
   * property "mc." + name, looked up with `default`; when that lookup gives null, the environment
   * variable of the property; otherwise `default`.
   */
  function GetProperty(config: map<string, string>, system: map<string, string>, env: map<string, string>,
                       property: string, default: string): (r: string)
    ensures property in config ==> r == config[property]
    ensures property !in config && "mc." + property in system ==> r == system["mc." + property]
    ensures property !in config && "mc." + property !in system ==> r == default
  {
    if property in config then config[property]
    else
      var jvmProperty := SystemGetProperty(system, "mc." + property, default);
      if jvmProperty.Some? then jvmProperty.value
      else
        match GetEnv(env, EnvVarName(property))
        case Some(envVar) => envVar
        case None => default
  }

  /** `System.getenv(name)`: the variable's value, or null when it is unset. */
  function GetEnv(env: map<string, string>, name: string): (r: Option<string>)
    ensures r.Some? <==> name in env
    ensures r.Some? ==> r.value == env[name]
  {
    if name in env then Some(env[name]) else None
  }

  /**
   * The environment branch is dead: the system lookup already yields the default, so two
   * environments never give different values, and an environment variable set for an unconfigured
   * property still gives the default.
   */
  lemma EnvironmentNeverConsulted(config: map<string, string>, system: map<string, string>,
                                  env1: map<string, string>, env2: map<string, string>, property: string, default: string)
    ensures GetProperty(config, system, env1, property, default) == GetProperty(config, system, env2, property, default)
    ensures property !in config && "mc." + property !in system && EnvVarName(property) in env1 ==>
      GetProperty(config, system, env1, property, default) == default
  {
  }

  function UpperAscii(c: char): (u: char)
    ensures 'a' <= c <= 'z' ==> 'A' <= u <= 'Z' && u as int == c as int - 32
    ensures !('a' <= c <= 'z') ==> u == c
  {
    if 'a' <= c <= 'z' then (c as int - 32) as char else c
  }

  /** The name of the environment variable a property would be read from: "mc." + name, dots to '_', upper-cased. */
  function EnvVarName(property: string): (r: string)
    ensures |r| == |property| + 3 && r[..3] == "MC_"
    ensures forall i :: 0 <= i < |property| ==> r[i + 3] == (if property[i] == '.' then '_' else UpperAscii(property[i]))
  {
    var name := "mc." + property;
    seq(|name|, i requires 0 <= i < |name| => if name[i] == '.' then '_' else UpperAscii(name[i]))
  }

  lemma EnvVarNameExample()
    ensures EnvVarName("queue.size") == "MC_QUEUE_SIZE"
  {
    var r := EnvVarName("queue.size");
    var expected := "MC_QUEUE_SIZE";
    forall i | 0 <= i < |expected| ensures r[i] == expected[i] {
      if i >= 3 {
        assert r[i] == (if "queue.size"[i - 3] == '.' then '_' else UpperAscii("queue.size"[i - 3]));
      }
    }
  }

  // ---- splitting ----

  /** `String.split(sep)`: the pieces between separators, empty pieces included (so "" gives [""]). */
  function Split(s: string, sep: char): (r: seq<string>)
    ensures |r| >= 1
    ensures forall i :: 0 <= i < |r| ==> sep !in r[i]
    ensures Join(r, sep) == s
  {
    if |s| == 0 then [""]
    else
      var rest := Split(s[1..], sep);
      if s[0] == sep then
        assert Join([""] + rest, sep) == [sep] + Join(rest, sep);
        assert s == [s[0]] + s[1..];
        [""] + rest
      else
        var r := [[s[0]] + rest[0]] + rest[1..];
        assert Join(r, sep) == [s[0]] + Join(rest, sep) by {
          if |rest| > 1 {
            assert r[1..] == rest[1..];
          }
        }
        assert s == [s[0]] + s[1..];
        r
  }

  /** The inverse of `Split`: the pieces glued with the separator. */
  function Join(parts: seq<string>, sep: char): string
    requires |parts| >= 1
  {
    if |parts| == 1 then parts[0] else parts[0] + [sep] + Join(parts[1..], sep)
  }

  /** Splitting a separator-free piece gives it back alone. */
  lemma {:induction false} SplitPlain(s: string, sep: char)
    requires sep !in s
    ensures Split(s, sep) == [s]
  {
    if |s| > 0 {
      SplitPlain(s[1..], sep);
      assert [s[0]] + s[1..] == s;
    }
  }

  /** Splitting "a" + sep + rest gives "a" followed by the pieces of rest. */
  lemma {:induction false} SplitCons(a: string, rest: string, sep: char)
    requires sep !in a
    ensures Split(a + [sep] + rest, sep) == [a] + Split(rest, sep)
  {
    if |a| == 0 {
      assert a + [sep] + rest == [sep] + rest;
      assert ([sep] + rest)[1..] == rest;
    } else {
      SplitCons(a[1..], rest, sep);
      var s := a + [sep] + rest;
      assert s[1..] == a[1..] + [sep] + rest;
      assert [a[0]] + a[1..] == a;
    }
  }

  /** Joining separator-free pieces and splitting again gives the pieces back. */
  lemma {:induction false} SplitJoin(parts: seq<string>, sep: char)
    requires |parts| >= 1
    requires forall i :: 0 <= i < |parts| ==> sep !in parts[i]
    ensures Split(Join(parts, sep), sep) == parts
  {
    if |parts| == 1 {
      SplitPlain(parts[0], sep);
    } else {
      SplitJoin(parts[1..], sep);
      SplitCons(parts[0], Join(parts[1..], sep), sep);
      assert [parts[0]] + parts[1..] == parts;
    }
  }

  /** The list helper the property getters apply after splitting: the split of an empty value is no entries. */
  function CollapseIfEmpty(xs: seq<string>): (r: seq<string>)
    ensures xs == [""] ==> r == []
    ensures xs != [""] ==> r == xs
  {
    if xs == [""] then [] else xs
  }

  /** `getAllowedMasterHosts`: the comma-separated entries of the value. */
  function AllowedMasterHosts(value: string): (r: seq<string>)
    ensures value == "" ==> r == []
    ensures value != "" ==> r == Split(value, ',') && Join(r, ',') == value
    ensures forall i :: 0 <= i < |r| ==> ',' !in r[i]
  {
    var parts := Split(value, ',');
    assert parts == [""] ==> Join(parts, ',') == "";
    CollapseIfEmpty(parts)
  }

  // ---- numbers ----

  predicate IsDigit(c: char) { '0' <= c <= '9' }

  predicate AllDigits(s: string) { forall i :: 0 <= i < |s| ==> IsDigit(s[i]) }

  /** The value of a string of decimal digits. */
  function DigitsValue(s: string): (n: nat)
    requires AllDigits(s)
  {
    if s == [] then 0 else DigitsValue(s[..|s| - 1]) * 10 + (s[|s| - 1] as int - '0' as int)
  }

  /** The decimal digits of a natural number. */
  function NatToDigits(n: nat): (s: string)
    ensures |s| >= 1 && AllDigits(s)
  {
    if n < 10 then [('0' as int + n) as char] else NatToDigits(n / 10) + [('0' as int + n % 10) as char]
  }

  lemma {:induction false} DigitsRoundTrip(n: nat)
    ensures DigitsValue(NatToDigits(n)) == n
  {
    if n >= 10 {
      DigitsRoundTrip(n / 10);
      var s := NatToDigits(n);
      assert s[..|s| - 1] == NatToDigits(n / 10);
    }
  }

  const INT_MIN: int := -0x8000_0000
  const INT_MAX: int := 0x7fff_ffff
  const LONG_MIN: int := -0x8000_0000_0000_0000
  const LONG_MAX: int := 0x7fff_ffff_ffff_ffff

  const NumberFormat: Exception := Other("NumberFormatException")

  /**
   * `toInt` / `toLong`: an optional sign and at least one decimal digit, whose value lies in
   * [lo, hi]; anything else throws NumberFormatException.
   */
  function ParseInteger(s: string, lo: int, hi: int): (r: Result<int, Exception>)
    ensures r.Success? ==> lo <= r.value <= hi
    ensures r.Failure? ==> r.error == NumberFormat
  {
    var neg := |s| > 0 && s[0] == '-';
    var digits := if |s| > 0 && (s[0] == '-' || s[0] == '+') then s[1..] else s;
    if |digits| == 0 || !AllDigits(digits) then Failure(NumberFormat)
    else
      var n: int := DigitsValue(digits);
      var v := if neg then 0 - n else n;
      if lo <= v <= hi then Success(v) else Failure(NumberFormat)
  }

  function ParseInt(s: string): Result<int, Exception> { ParseInteger(s, INT_MIN, INT_MAX) }

  function ParseLong(s: string): Result<int, Exception> { ParseInteger(s, LONG_MIN, LONG_MAX) }

  /** The decimal text of an integer. */
  function IntToString(n: int): string {
    if n < 0 then "-" + NatToDigits(-n) else NatToDigits(n)
  }

  /** Every integer in range parses back from its decimal text. */
  lemma IntRoundTrip(n: int, lo: int, hi: int)
    requires lo <= n <= hi
    ensures ParseInteger(IntToString(n), lo, hi) == Success(n)
  {
    DigitsRoundTrip(if n < 0 then -n else n);
    if n < 0 {
      var s := IntToString(n);
      assert s[1..] == NatToDigits(-n);
    }
  }

  /** The value 0.d1d2...dk of a digit string read as a fraction. */
  function FractionValue(s: string): (x: real)
    requires AllDigits(s)
    ensures 0.0 <= x < 1.0
  {
    if s == [] then 0.0 else ((s[0] as int - '0' as int) as real + FractionValue(s[1..])) / 10.0
  }

  /** The value of the decimal with the given whole and fractional digits. */
  function DecimalValue(whole: string, frac: string): real
    requires AllDigits(whole) && AllDigits(frac)
  {
    DigitsValue(whole) as real + FractionValue(frac)
  }

  /**
   * `toDouble`, restricted to plain decimals: an optional sign, digits, and an optional '.' with more
   * digits, at least one digit in all; anything else throws NumberFormatException.
   */
  function ParseDouble(s: string): (r: Result<real, Exception>)
    ensures r.Failure? ==> r.error == NumberFormat
    ensures AllDigits(s) && |s| > 0 ==> r == Success(DigitsValue(s) as real)
  {
    var neg := |s| > 0 && s[0] == '-';
    var body := if |s| > 0 && (s[0] == '-' || s[0] == '+') then s[1..] else s;
    var parts := Split(body, '.');
    assert AllDigits(s) && |s| > 0 ==> body == s && parts == [s] by {
      if AllDigits(s) && |s| > 0 {
        SplitPlain(s, '.');
      }
    }
    if |parts| > 2 || !AllDigits(parts[0]) then Failure(NumberFormat)
    else
      var frac := if |parts| == 2 then parts[1] else "";
      if !AllDigits(frac) || |parts[0]| + |frac| == 0 then Failure(NumberFormat)
      else
        var x := DecimalValue(parts[0], frac);
        Success(if neg then -x else x)
  }

  /** A decimal "a.b", optionally signed, parses to the whole part plus the fraction, negated after '-'. */
  lemma ParseDoubleDecimal(a: string, b: string)
    requires AllDigits(a) && AllDigits(b) && |a| + |b| > 0
    ensures ParseDouble(a + "." + b) == Success(DecimalValue(a, b))
    ensures ParseDouble("+" + a + "." + b) == Success(DecimalValue(a, b))
    ensures ParseDouble("-" + a + "." + b) == Success(-DecimalValue(a, b))
  {
    var d := a + "." + b;
    assert '.' !in a && '.' !in b by {
      assert !IsDigit('.');
    }
    SplitCons(a, b, '.');
    SplitPlain(b, '.');
    assert Split(d, '.') == [a, b];
    assert |a| == 0 ==> d[0] == '.';
    assert |a| > 0 ==> d[0] == a[0] && IsDigit(a[0]);
    ParseDoubleOfParts(d, d, a, b);
    assert "+" + a + "." + b == "+" + d && ("+" + d)[1..] == d;
    ParseDoubleOfParts("+" + d, d, a, b);
    assert "-" + a + "." + b == "-" + d && ("-" + d)[1..] == d;
    ParseDoubleOfParts("-" + d, d, a, b);
  }

  /** `ParseDouble` of a text whose unsigned part splits at '.' into two digit runs. */
  lemma ParseDoubleOfParts(s: string, body: string, a: string, b: string)
    requires body == if |s| > 0 && (s[0] == '-' || s[0] == '+') then s[1..] else s
    requires Split(body, '.') == [a, b] && AllDigits(a) && AllDigits(b) && |a| + |b| > 0
    ensures ParseDouble(s) == Success(if |s| > 0 && s[0] == '-' then -DecimalValue(a, b) else DecimalValue(a, b))
  {
  }

  /**
   * `equals(other, ignoreCase = true)` against an ASCII word: position by position equal once
   * letters are upper-cased (no character outside ASCII upper- or lower-cases to a letter of "true").
   */
  predicate EqualsIgnoreCase(a: string, b: string) {
    |a| == |b| && forall i :: 0 <= i < |a| ==> UpperAscii(a[i]) == UpperAscii(b[i])
  }

  /** Kotlin's `toBoolean`: true exactly for "true" in any letter case. */
  function ParseBoolean(s: string): (b: bool)
    ensures b <==> EqualsIgnoreCase(s, "true")
  {
    |s| == 4 && UpperAscii(s[0]) == 'T' && UpperAscii(s[1]) == 'R' && UpperAscii(s[2]) == 'U' && UpperAscii(s[3]) == 'E'
  }

  // ---- the worker list ----

  /** One entry "host" or "host:efficiency" (further ':'-separated tokens are ignored). */
  function WorkerEntry(entry: string): (r: Result<(string, real), Exception>)
    ensures ':' !in entry ==> r == Success((entry, 1.0))
    ensures r.Success? ==> r.value.0 == Split(entry, ':')[0]
    ensures |Split(entry, ':')| >= 2 ==>
      (r.Success? <==> ParseDouble(Split(entry, ':')[1]).Success?)
      && (r.Success? ==> r.value.1 == ParseDouble(Split(entry, ':')[1]).value)
  {
    var tokens := Split(entry, ':');
    assert ':' !in entry ==> tokens == [entry] by {
      if ':' !in entry {
        SplitPlain(entry, ':');
      }
    }
    if |tokens| == 1 then Success((tokens[0], 1.0))
    else
      match ParseDouble(tokens[1])
      case Success(x) => Success((tokens[0], x))
      case Failure(e) => Failure(e)
  }

  function WorkerEntries(entries: seq<string>): (r: Result<seq<(string, real)>, Exception>)
    ensures r.Success? ==> |r.value| == |entries|
    ensures r.Success? <==> forall i :: 0 <= i < |entries| ==> WorkerEntry(entries[i]).Success?
    ensures r.Success? ==> forall i :: 0 <= i < |entries| ==> r.value[i] == WorkerEntry(entries[i]).value
  {
    if entries == [] then Success([])
    else
      match WorkerEntry(entries[0])
      case Failure(e) => Failure(e)
      case Success(w) =>
        match WorkerEntries(entries[1..])
        case Failure(e) => Failure(e)
        case Success(ws) =>
          assert forall i :: 1 <= i < |entries| ==> entries[i] == entries[1..][i - 1];
          Success([w] + ws)
  }

  /** `getAvailableWorkers`: the comma-separated entries of the value, each a host with its efficiency. */
  function AvailableWorkers(value: string): (r: Result<seq<(string, real)>, Exception>)
    ensures value == "" ==> r == Success([])
    ensures value != "" ==> (r.Success? <==> forall i :: 0 <= i < |Split(value, ',')| ==> WorkerEntry(Split(value, ',')[i]).Success?)
    ensures value != "" && r.Success? ==>
      (|r.value| == |Split(value, ',')|
       && forall i :: 0 <= i < |r.value| ==> r.value[i] == WorkerEntry(Split(value, ',')[i]).value)
  {
    SplitOfEmpty(value, ',');
    WorkerEntries(CollapseIfEmpty(Split(value, ',')))
  }

  /** Splitting gives the single empty piece exactly for the empty value. */
  lemma SplitOfEmpty(s: string, sep: char)
    ensures Split(s, sep) == [""] <==> s == ""
  {
    var parts := Split(s, sep);
    if parts == [""] {
      assert Join(parts, sep) == "";
    }
  }

  // ---- the settings ----

  /** The settings the job bookkeeping reads. */
  datatype Settings = Settings(
    maxQueueSize: int,
    freeSpaceThresholdMb: int,
    queueMinimumSpaceRemaining: int,
    maxConcurrentLocalJobs: int,
    claimedCleanupFreeSpaceThreshold: int,
    unclaimedCleanupFreeSpaceThreshold: int,
    claimedCleanupTimeThreshold: int,
    unclaimedCleanupTimeThreshold: int,
    zombieErrorCleanupFreeSpaceThreshold: int,
    zombieErrorCleanupTimeThreshold: int,
    transitiveStatusesCleanupTimeThreshold: int,
    staleVideosCleanupTimeThreshold: int,
    inQueueVideosCleanupTimeThreshold: int,
    workerModeEnabled: bool,
    allowedMasterHosts: seq<string>,
    availableWorkers: seq<(string, real)>,
    downPingsThreshold: int,
    myMasterKey: Option<string>,
    hostUrl: string,
    queueFullResponseCachingTime: int)

  /** `nullIf("")`. */
  function NullIfEmpty(s: string): (r: Option<string>)
    ensures r.None? <==> s == ""
    ensures r.Some? ==> r.value == s
  {
    if s == "" then None else Some(s)
  }

  /** The value a property is configured with, in the file or as a system property, if any. */
  function Configured(config: map<string, string>, system: map<string, string>, property: string): (r: Option<string>)
  {
    if property in config then Some(config[property])
    else if "mc." + property in system then Some(system["mc." + property])
    else None
  }

  /** `isWorkerModeEnabled`: on when unset, otherwise exactly when the value is "true" in any letter case. */
  function IsWorkerModeEnabled(config: map<string, string>, system: map<string, string>, env: map<string, string>): (b: bool)
    ensures Configured(config, system, "worker.enabled").None? ==> b
    ensures Configured(config, system, "worker.enabled").Some? ==>
      (b <==> EqualsIgnoreCase(Configured(config, system, "worker.enabled").value, "true"))
  {
    ParseBoolean(GetProperty(config, system, env, "worker.enabled", "true"))
  }

  /** A key read as `getProperty(property, "").nullIf("")`: null when unset or empty, otherwise the configured key. */
  function OptionalKey(config: map<string, string>, system: map<string, string>, env: map<string, string>, property: string): (k: Option<string>)
    ensures k.None? <==> Configured(config, system, property) in {None, Some("")}
    ensures k.Some? ==> Configured(config, system, property) == k
  {
    NullIfEmpty(GetProperty(config, system, env, property, ""))
  }

  /** `getMyMasterKey`. */
  function MyMasterKey(config: map<string, string>, system: map<string, string>, env: map<string, string>): Option<string>
  {
    OptionalKey(config, system, env, "master.key")
  }

  /** `getSendgridApiKey`. */
  function SendgridApiKey(config: map<string, string>, system: map<string, string>, env: map<string, string>): Option<string>
  {
    OptionalKey(config, system, env, "sendgrid.apikey")
  }

  /** Digit strings within range parse to their value. */
  lemma ParseIntOfDigits(s: string)
    requires |s| >= 1 && AllDigits(s) && DigitsValue(s) <= INT_MAX
    ensures ParseInt(s) == Success(DigitsValue(s))
  {
  }

  /** With nothing configured, the settings the work queue and the admission checks read take their defaults. */
  lemma Defaults(env: map<string, string>)
    ensures ParseInt(GetProperty(map[], map[], env, "queue.size", "5")) == Success(5)
    ensures ParseInt(GetProperty(map[], map[], env, "space.threshold", "1500")) == Success(1500)
    ensures ParseInt(GetProperty(map[], map[], env, "space.threshold.panic", "300")) == Success(300)
    ensures ParseInt(GetProperty(map[], map[], env, "workqueue.concurrent", "1")) == Success(1)
    ensures ParseInt(GetProperty(map[], map[], env, "worker.downpings.threshold", "3")) == Success(3)
  {
    assert "15"[..1] == "1" && "150"[..2] == "15" && "1500"[..3] == "150";
    assert "30"[..1] == "3" && "300"[..2] == "30";
    assert DigitsValue("1500") == 1500 && DigitsValue("300") == 300;
    ParseIntOfDigits("5");
    ParseIntOfDigits("1500");
    ParseIntOfDigits("300");
    ParseIntOfDigits("1");
    ParseIntOfDigits("3");
  }
}
