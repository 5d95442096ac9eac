/** What the yt-dlp controllers share: the cookies-file location, the user-agent
    strings, and how yt-dlp reads the options of an argument list. */
module YtDlpConfig {
  import opened JsValues
  import opened JsStrings

  const WindowsUA: string := "Mozilla/5.0 (Windows NT 10.0; Win64; x64) AppleWebKit/537.36 (KHTML, like Gecko) Chrome/91.0.4472.124 Safari/537.36"
  const MacUA: string := "Mozilla/5.0 (Macintosh; Intel Mac OS X 10_15_7) AppleWebKit/537.36 (KHTML, like Gecko) Chrome/120.0.0.0 Safari/537.36"
  const IPhoneUA: string := "Mozilla/5.0 (iPhone; CPU iPhone OS 17_0 like Mac OS X) AppleWebKit/605.1.15 (KHTML, like Gecko) Version/17.0 Mobile/15E148 Safari/604.1"

  const UserAgentFlag: string := "--user-agent"
  const CookiesFlag: string := "--cookies"
  const FormatFlag: string := "-f"
  const OutputFlag: string := "-o"
  const MergeFormatFlag: string := "--merge-output-format"

  /** `process.env.COOKIES_PATH || (isWindows ? "cookies.txt" : "/etc/secrets/cookies.txt")`:
      a set, non-empty variable wins; otherwise the platform default. Never empty. */
  function CookiesPath(envValue: Option<string>, isWindows: bool): (path: string)
    ensures path != ""
    ensures !Missing(envValue) ==> path == envValue.value
    ensures Missing(envValue) ==> path == (if isWindows then "cookies.txt" else "/etc/secrets/cookies.txt")
  {
    if !Missing(envValue) then envValue.value
    else if isWindows then "cookies.txt" else "/etc/secrets/cookies.txt"
  }

  /** The options of these argument lists that take a value: yt-dlp reads the word after
      each of them as its value, not as an option. */
  predicate TakesValue(word: string) {
    word == UserAgentFlag || word == CookiesFlag || word == FormatFlag || word == OutputFlag
      || word == MergeFormatFlag || word == "--audio-format" || word == "--audio-quality"
  }

  /** The values yt-dlp reads for option `flag` from the option words, in order. */
  function ValuesOf(words: seq<string>, flag: string): seq<string>
    decreases |words|
  {
    if words == [] then []
    else if TakesValue(words[0]) && |words| >= 2 then
      (if words[0] == flag then [words[1]] else []) + ValuesOf(words[2..], flag)
    else ValuesOf(words[1..], flag)
  }

  /** Whether a bare switch (an option without a value) is given. */
  predicate HasSwitch(words: seq<string>, switch: string)
    decreases |words|
  {
    if words == [] then false
    else if TakesValue(words[0]) && |words| >= 2 then HasSwitch(words[2..], switch)
    else words[0] == switch || HasSwitch(words[1..], switch)
  }

  /** Option words that parse to the end without a value spilling past them. */
  predicate Closed(words: seq<string>)
    decreases |words|
  {
    if words == [] then true
    else if TakesValue(words[0]) then |words| >= 2 && Closed(words[2..])
    else Closed(words[1..])
  }

  /** Parsing a closed segment and then the rest is parsing the two in sequence. */
  lemma ValuesOfAppend(a: seq<string>, b: seq<string>, flag: string)
    requires Closed(a)
    ensures ValuesOf(a + b, flag) == ValuesOf(a, flag) + ValuesOf(b, flag)
    ensures HasSwitch(a + b, flag) == (HasSwitch(a, flag) || HasSwitch(b, flag))
  {
    ValuesAppend(a, b, flag);
    SwitchAppend(a, b, flag);
  }

  /** Three segments, the first two closed, read one after the other. */
  lemma ValuesOfAppend3(a: seq<string>, b: seq<string>, c: seq<string>, flag: string)
    requires Closed(a) && Closed(b)
    ensures ValuesOf(a + (b + c), flag) == ValuesOf(a, flag) + (ValuesOf(b, flag) + ValuesOf(c, flag))
    ensures HasSwitch(a + (b + c), flag) == (HasSwitch(a, flag) || HasSwitch(b, flag) || HasSwitch(c, flag))
  {
    ValuesOfAppend(b, c, flag);
    ValuesOfAppend(a, b + c, flag);
  }

  lemma {:induction false} ValuesAppend(a: seq<string>, b: seq<string>, flag: string)
    requires Closed(a)
    ensures ValuesOf(a + b, flag) == ValuesOf(a, flag) + ValuesOf(b, flag)
    decreases |a|
  {
    if a == [] {
      assert a + b == b;
    } else if TakesValue(a[0]) {
      ValuesAppend(a[2..], b, flag);
      ValuedStep(a, b, flag);
    } else {
      ValuesAppend(a[1..], b, flag);
      BareStep(a, b, flag);
    }
  }

  /** The inductive step past an option and its value. */
  lemma ValuedStep(a: seq<string>, b: seq<string>, flag: string)
    requires |a| >= 2 && TakesValue(a[0])
    requires ValuesOf(a[2..] + b, flag) == ValuesOf(a[2..], flag) + ValuesOf(b, flag)
    ensures ValuesOf(a + b, flag) == ValuesOf(a, flag) + ValuesOf(b, flag)
  {
    var head := if a[0] == flag then [a[1]] else [];
    assert ValuesOf(a + b, flag) == head + ValuesOf(a[2..] + b, flag) by {
      assert (a + b)[2..] == a[2..] + b;
      assert (a + b)[0] == a[0] && (a + b)[1] == a[1];
    }
    assert head + (ValuesOf(a[2..], flag) + ValuesOf(b, flag))
      == (head + ValuesOf(a[2..], flag)) + ValuesOf(b, flag);
  }

  /** The inductive step past a word that takes no value. */
  lemma BareStep(a: seq<string>, b: seq<string>, flag: string)
    requires a != [] && !TakesValue(a[0])
    requires ValuesOf(a[1..] + b, flag) == ValuesOf(a[1..], flag) + ValuesOf(b, flag)
    ensures ValuesOf(a + b, flag) == ValuesOf(a, flag) + ValuesOf(b, flag)
  {
    assert (a + b)[1..] == a[1..] + b;
    assert (a + b)[0] == a[0];
  }

  lemma {:induction false} SwitchAppend(a: seq<string>, b: seq<string>, flag: string)
    requires Closed(a)
    ensures HasSwitch(a + b, flag) == (HasSwitch(a, flag) || HasSwitch(b, flag))
    decreases |a|
  {
    if a == [] {
      assert a + b == b;
    } else {
      var k := if TakesValue(a[0]) then 2 else 1;
      SwitchAppend(a[k..], b, flag);
      assert HasSwitch(a + b, flag) == (HasSwitch(a, flag) || HasSwitch(b, flag)) by {
        assert (a + b)[0] == a[0];
        assert (a + b)[k..] == a[k..] + b;
      }
    }
  }

  lemma {:induction false} ClosedAppend(a: seq<string>, b: seq<string>)
    requires Closed(a) && Closed(b)
    ensures Closed(a + b)
    decreases |a|
  {
    if a == [] {
      assert a + b == b;
    } else {
      var k := if TakesValue(a[0]) then 2 else 1;
      ClosedAppend(a[k..], b);
      assert Closed(a + b) by {
        assert (a + b)[0] == a[0];
        assert (a + b)[k..] == a[k..] + b;
      }
    }
  }

  /** An option given with its value. */
  lemma ValuedPair(flag: string, value: string, query: string)
    requires TakesValue(flag)
    ensures Closed([flag, value])
    ensures ValuesOf([flag, value], query) == (if flag == query then [value] else [])
    ensures !HasSwitch([flag, value], query)
  {
    assert [flag, value][2..] == [];
  }

  /** A bare switch. */
  lemma BareSwitch(switch: string, query: string)
    requires !TakesValue(switch)
    ensures Closed([switch])
    ensures ValuesOf([switch], query) == []
    ensures HasSwitch([switch], query) == (switch == query)
  {
    assert [switch][1..] == [];
  }

  /** A run of bare switches. */
  lemma {:induction false} Switches(words: seq<string>, query: string)
    requires forall i :: 0 <= i < |words| ==> !TakesValue(words[i])
    ensures Closed(words)
    ensures ValuesOf(words, query) == []
    ensures HasSwitch(words, query) == (query in words)
    decreases |words|
  {
    if words != [] {
      Switches(words[1..], query);
      assert query in words <==> words[0] == query || query in words[1..];
    }
  }

  /** The user-agent option with its value. */
  function UserAgentOption(ua: string): seq<string> {
    [UserAgentFlag, ua]
  }

  /** `--cookies <path>` when it is wanted and the file exists, nothing otherwise. */
  function CookiesOption(wanted: bool, found: bool, path: string): seq<string> {
    if wanted && found then [CookiesFlag, path] else []
  }

  /** What yt-dlp reads from the two options these builders place last before the URL. */
  lemma IdentityOptions(ua: string, wanted: bool, found: bool, path: string, query: string)
    ensures Closed(UserAgentOption(ua) + CookiesOption(wanted, found, path))
    ensures ValuesOf(UserAgentOption(ua) + CookiesOption(wanted, found, path), query)
      == (if query == UserAgentFlag then [ua] else [])
         + (if query == CookiesFlag && wanted && found then [path] else [])
    ensures !HasSwitch(UserAgentOption(ua) + CookiesOption(wanted, found, path), query)
  {
    ValuedPair(UserAgentFlag, ua, query);
    if wanted && found {
      ValuedPair(CookiesFlag, path, query);
      ValuesOfAppend(UserAgentOption(ua), CookiesOption(wanted, found, path), query);
      ClosedAppend(UserAgentOption(ua), CookiesOption(wanted, found, path));
    } else {
      assert UserAgentOption(ua) + CookiesOption(wanted, found, path) == UserAgentOption(ua);
    }
  }

  /** `quality && quality !== "auto" && quality.includes("p")`: a height is asked for. */
  predicate WantsHeight(quality: Option<string>) {
    !Missing(quality) && quality.value != "auto" && Contains(quality.value, "p")
  }

  /** The height text of a quality: its first `p` removed. */
  function HeightOf(quality: string): string {
    ReplaceFirst(quality, "p", "")
  }

  /** A quality such as "720p" asks for a height, and the height is the digits before
      the `p`. */
  lemma HeightOfQuality(digits: string)
    requires forall i :: 0 <= i < |digits| ==> digits[i] != 'p'
    ensures WantsHeight(Some(digits + "p"))
    ensures HeightOf(digits + "p") == digits
  {
    var q := digits + "p";
    assert OccursAt(q, "p", |digits|) by {
      assert q[|digits|..|digits| + 1] == "p";
    }
    assert q != "auto" by {
      assert q[|q| - 1] == 'p';
    }
    match IndexOf(q, "p")
    case None =>
      assert false;
    case Some(i) =>
      assert OccursAt(q, "p", i);
      assert q[i..i + 1][0] == q[i];
      assert i == |digits|;
      assert q[..i] == digits && q[i + 1..] == [];
  }
}
