/** The clean-up `planTrip` applies to the agent's final text before parsing it
    (zypher-server.ts): every "```json" and then every "```" is deleted, each
    with one "\n" right after it if there is one, and the result is trimmed. */
module FenceCleaning {
  import opened JsText

  const JsonFence := "```json"
  const Fence := "```"

  /** `s.replace(/<pat>\n?/g, "")`: scanning left to right, every occurrence of
      `pat` that does not overlap an earlier one is deleted together with one
      following newline. */
  function StripAll(s: string, pat: string): (r: string)
    requires pat != []
    ensures |r| <= |s|
    decreases |s|
  {
    if s == [] then []
    else if pat <= s then
      var rest := s[|pat|..];
      if rest != [] && rest[0] == '\n' then StripAll(rest[1..], pat) else StripAll(rest, pat)
    else [s[0]] + StripAll(s[1..], pat)
  }

  /** The cleaned text that is handed to `JSON.parse`. */
  function Clean(s: string): string
  {
    Trim(StripAll(StripAll(s, JsonFence), Fence))
  }

  predicate NoBackticks(s: string)
  {
    forall i :: 0 <= i < |s| ==> s[i] != '`'
  }

  /** Text without a backtick in front of anything: the prefix passes through unchanged. */
  lemma {:induction false} StripAllSkipsPlainPrefix(x: string, rest: string, pat: string)
    requires pat != [] && pat[0] == '`' && NoBackticks(x)
    ensures StripAll(x + rest, pat) == x + StripAll(rest, pat)
    decreases |x|
  {
    if x != [] {
      var s := x + rest;
      assert s[0] == x[0];
      assert !(pat <= s);
      assert s[1..] == x[1..] + rest;
      StripAllSkipsPlainPrefix(x[1..], rest, pat);
      assert [x[0]] + x[1..] == x;
    } else {
      assert x + rest == rest;
    }
  }

  lemma StripAllNoBackticks(x: string, pat: string)
    requires pat != [] && pat[0] == '`' && NoBackticks(x)
    ensures StripAll(x, pat) == x
  {
    StripAllSkipsPlainPrefix(x, [], pat);
    assert x + [] == x;
  }

  /** Text with no backtick is only trimmed. */
  lemma CleanWithoutBackticks(x: string)
    requires NoBackticks(x)
    ensures Clean(x) == Trim(x)
  {
    StripAllNoBackticks(x, JsonFence);
    StripAllNoBackticks(x, Fence);
  }

  /** "```json\n" + x + "\n```" cleans to `x` trimmed. */
  lemma CleanJsonFenced(x: string)
    requires NoBackticks(x)
    ensures Clean("```json\n" + x + "\n```") == Trim(x)
  {
    var s := "```json\n" + x + "\n```";
    assert JsonFence <= s;
    assert s[|JsonFence|..] == "\n" + (x + "\n```");
    assert s[|JsonFence|..][1..] == x + "\n```";
    assert StripAll(s, JsonFence) == StripAll(x + "\n```", JsonFence);
    StripAllSkipsPlainPrefix(x + "\n", "```", JsonFence);
    assert x + "\n```" == (x + "\n") + "```";
    assert StripAll("```", JsonFence) == "```" by {
      assert !(JsonFence <= "```");
      assert !(JsonFence <= "``");
      assert !(JsonFence <= "`");
      assert "```"[1..] == "``" && "``"[1..] == "`" && "`"[1..] == [];
    }
    StripAllSkipsPlainPrefix(x + "\n", "```", Fence);
    assert StripAll("```", Fence) == [] by {
      assert "```"[|Fence|..] == [];
    }
    assert (x + "\n") + [] == x + ['\n'];
    TrimDropsTrailingWhitespace(x, '\n');
  }

  /** "```\n" + x + "\n```" (a fence without a language tag) cleans to `x` trimmed. */
  lemma CleanBareFenced(x: string)
    requires NoBackticks(x)
    ensures Clean("```\n" + x + "\n```") == Trim(x)
  {
    var s := "```\n" + x + "\n```";
    BareFenceHasNoJsonFence(x);
    BareFenceStripped(x);
    TrimDropsTrailingWhitespace(x, '\n');
  }

  lemma BareFenceHasNoJsonFence(x: string)
    requires NoBackticks(x)
    ensures StripAll("```\n" + x + "\n```", JsonFence) == "```\n" + x + "\n```"
  {
    var y := "\n" + x + "\n```";
    assert "```\n" + x + "\n```" == "```" + y;
    StripJsonFenceAfterTicks(y);
    assert y == ("\n" + x + "\n") + "```";
    StripAllSkipsPlainPrefix("\n" + x + "\n", "```", JsonFence);
    StripJsonFenceOnTicks();
  }

  lemma BareFenceStripped(x: string)
    requires NoBackticks(x)
    ensures StripAll("```\n" + x + "\n```", Fence) == x + ['\n']
  {
    var s := "```\n" + x + "\n```";
    assert Fence <= s;
    assert s[|Fence|..] == "\n" + (x + "\n```");
    assert s[|Fence|..][1..] == x + "\n```";
    assert x + "\n```" == (x + "\n") + "```";
    StripAllSkipsPlainPrefix(x + "\n", "```", Fence);
    assert StripAll("```", Fence) == [] by {
      assert "```"[|Fence|..] == [];
    }
    assert (x + "\n") + [] == x + ['\n'];
  }

  /** A lone closing fence is not "```json". */
  lemma StripJsonFenceOnTicks()
    ensures StripAll("```", JsonFence) == "```"
  {
    assert "```"[1..] == "``" && "``"[1..] == "`" && "`"[1..] == [];
  }

  /** "```json" at the front of "```" + y means y starts with "json". */
  lemma JsonFenceAfterTicks(y: string)
    ensures JsonFence <= "```" + y ==> "json" <= y
  {
    var s := "```" + y;
    if JsonFence <= s {
      assert s[3..7] == "json";
      assert y[..4] == s[3..7];
    }
  }

  /** "```json" cannot start inside three backticks that are followed by something
      other than a backtick and "json". */
  lemma StripJsonFenceAfterTicks(y: string)
    requires y != [] && y[0] != '`' && !("json" <= y)
    ensures StripAll("```" + y, JsonFence) == "```" + StripAll(y, JsonFence)
  {
    var s := "```" + y;
    JsonFenceAfterTicks(y);
    assert !(JsonFence <= s);
    var s1 := s[1..];
    assert s1 == "``" + y;
    assert !(JsonFence <= s1) by {
      assert s1[2] == y[0];
    }
    var s2 := s1[1..];
    assert s2 == "`" + y;
    assert !(JsonFence <= s2) by {
      assert s2[1] == y[0];
    }
    assert s2[1..] == y;
    var r := StripAll(y, JsonFence);
    assert StripAll(s2, JsonFence) == "`" + r;
    assert StripAll(s1, JsonFence) == "``" + r;
  }

  /** A fence with another language tag ("```js") leaves the tag text behind. */
  lemma CleanKeepsOtherTag(tag: string, x: string)
    requires NoBackticks(tag) && NoBackticks(x)
    requires tag != [] && tag[0] != '\n'
    requires !("json" <= tag + x)
    ensures Clean("```" + tag + x) == Trim(tag + x)
  {
    var y := tag + x;
    var s := "```" + tag + x;
    assert s == "```" + y;
    assert NoBackticks(y);
    StripJsonFenceAfterTicks(y);
    StripAllNoBackticks(y, JsonFence);
    assert Fence <= s;
    assert s[|Fence|..] == y;
    StripAllNoBackticks(y, Fence);
  }

  /** A complete fence with another language tag ("```js\n" ... "\n```") loses
      both fences but keeps the tag line. */
  lemma CleanKeepsOtherTagFenced(tag: string, x: string)
    requires NoBackticks(tag) && NoBackticks(x)
    requires tag != [] && tag[0] != '\n'
    requires !("json" <= tag)
    ensures Clean("```" + tag + "\n" + x + "\n```") == Trim(tag + "\n" + x)
  {
    var body := tag + "\n" + x + "\n";
    var y := body + "```";
    var s := "```" + tag + "\n" + x + "\n```";
    assert s == "```" + y;
    assert NoBackticks(body);
    assert !("json" <= y) by {
      JsonPrefixOfLonger(tag, "\n" + x + "\n```");
      assert y == tag + ("\n" + x + "\n```");
    }
    StripJsonFenceAfterTicks(y);
    StripAllSkipsPlainPrefix(body, "```", JsonFence);
    StripJsonFenceOnTicks();
    assert StripAll(s, JsonFence) == s;
    assert Fence <= s;
    assert s[|Fence|..] == y;
    StripAllSkipsPlainPrefix(body, "```", Fence);
    assert StripAll("```", Fence) == [] by {
      assert "```"[|Fence|..] == [];
    }
    assert StripAll(s, Fence) == (tag + "\n" + x) + ['\n'];
    TrimDropsTrailingWhitespace(tag + "\n" + x, '\n');
  }

  /** "json" cannot start inside a tag that is followed by a newline unless
      it starts the tag itself. */
  lemma JsonPrefixOfLonger(t: string, u: string)
    requires u != [] && u[0] == '\n'
    ensures "json" <= t + u ==> "json" <= t
  {
    assert forall i :: 0 <= i < |t| ==> (t + u)[i] == t[i];
    assert (t + u)[|t|] == '\n';
  }
}
