/**
 Identifiers and session keys of the agent runtime:
 `kirara_ai/agent_runtime/core.py`, `_clean_identifier` and `ChannelContext`.
 */
module AgentIdentity {
  import opened Wrappers
  import opened TextUnits

  const MAX_IDENTIFIER := 256

  /** The character class `[A-Za-z0-9._:@/-]`. */
  predicate IsPlain(c: char)
  {
    || 'A' <= c <= 'Z' || 'a' <= c <= 'z' || '0' <= c <= '9'
    || c == '.' || c == '_' || c == ':' || c == '@' || c == '/' || c == '-'
  }

  predicate AllPlain(s: string)
  {
    forall i :: 0 <= i < |s| ==> IsPlain(s[i])
  }

  predicate IsIdentifier(s: string)
  {
    s != "" && |s| <= MAX_IDENTIFIER && AllPlain(s)
  }

  function AfterBadRun(s: string): (t: string)
    ensures |t| <= |s|
  {
    if s != "" && !IsPlain(s[0]) then AfterBadRun(s[1..]) else s
  }

  /** Every run of characters outside the class becomes one underscore. */
  function Collapse(s: string): (t: string)
    ensures AllPlain(t) && |t| <= |s| && (s != "" ==> t != "")
    ensures AllPlain(s) ==> t == s
    decreases |s|
  {
    if s == "" then ""
    else if IsPlain(s[0]) then
      assert AllPlain(s) ==> AllPlain(s[1..]);
      [s[0]] + Collapse(s[1..])
    else ['_'] + Collapse(AfterBadRun(s[1..]))
  }

  predicate NonePlain(s: string)
  {
    forall i :: 0 <= i < |s| ==> !IsPlain(s[i])
  }

  /** What is plain stays, and each run of other characters is one underscore. */
  lemma {:induction false} CollapseIs(a: string, bad: string, b: string)
    requires AllPlain(a) && bad != "" && NonePlain(bad) && (b != "" ==> IsPlain(b[0]))
    ensures Collapse(a + (bad + b)) == a + ("_" + Collapse(b))
  {
    hide IsPlain, NonePlain, AllPlain, Collapse;
    if a == "" {
      assert a + (bad + b) == bad + b && a + ("_" + Collapse(b)) == "_" + Collapse(b);
      BadRunCollapses(bad, b);
    } else {
      PlainParts(a);
      CollapseIs(a[1..], bad, b);
      PlainIsKept(a[0], a[1..] + (bad + b));
      assert a + (bad + b) == [a[0]] + (a[1..] + (bad + b));
      assert [a[0]] + (a[1..] + ("_" + Collapse(b))) == a + ("_" + Collapse(b));
    }
  }

  lemma PlainParts(a: string)
    requires AllPlain(a) && a != ""
    ensures IsPlain(a[0]) && AllPlain(a[1..])
  {
    hide IsPlain;
  }

  lemma PlainIsKept(c: char, rest: string)
    requires IsPlain(c)
    ensures Collapse([c] + rest) == [c] + Collapse(rest)
  {
    hide IsPlain, AllPlain;
    assert ([c] + rest)[1..] == rest;
  }

  lemma BadRunCollapses(bad: string, b: string)
    requires bad != "" && NonePlain(bad) && (b != "" ==> IsPlain(b[0]))
    ensures Collapse(bad + b) == "_" + Collapse(b)
  {
    hide IsPlain;
    assert (bad + b)[1..] == bad[1..] + b;
    AfterBadRunIs(bad[1..], b);
  }

  lemma {:induction false} AfterBadRunIs(bad: string, b: string)
    requires NonePlain(bad) && (b != "" ==> IsPlain(b[0]))
    ensures AfterBadRun(bad + b) == b
  {
    hide IsPlain;
    if bad == "" {
      assert bad + b == b;
    } else {
      assert (bad + b)[1..] == bad[1..] + b;
      AfterBadRunIs(bad[1..], b);
    }
  }

  function Clean(value: Option<string>, fallback: string): string
  {
    if value.None? then fallback
    else
      var text := Strip(value.value);
      if text == "" then fallback
      else
        var plain := if AllPlain(text) then text else Collapse(text);
        var cut := if |plain| <= MAX_IDENTIFIER then plain else plain[..MAX_IDENTIFIER];
        if cut == "" then fallback else cut
  }

  predicate Trimmed(s: string)
  {
    s != "" && !IsSpace(s[0]) && !IsSpace(s[|s| - 1])
  }

  /** Stripping keeps exactly the text that is blank-free at both ends. */
  lemma StripKeepsTrimmed(s: string)
    ensures Strip(s) == s <==> s == "" || Trimmed(s)
    ensures Strip(s) == "" || Trimmed(Strip(s))
  {
  }

  lemma CleanIsIdentifier(value: Option<string>, fallback: string)
    requires IsIdentifier(fallback)
    ensures IsIdentifier(Clean(value, fallback))
  {
    hide Strip, Collapse;
  }

  lemma PlainIsTrimmed(s: string)
    requires IsIdentifier(s)
    ensures Trimmed(s)
  {
  }

  lemma CleanKeepsIdentifiers(s: string, fallback: string)
    requires IsIdentifier(s)
    ensures Clean(Some(s), fallback) == s
  {
    hide Collapse, Strip, Trimmed, IsPlain;
    PlainIsTrimmed(s);
    StripKeepsTrimmed(s);
  }

  /**
   Cleaning always gives an identifier, and the identifiers are exactly what it
   leaves alone; so cleaning twice is cleaning once.
   */
  lemma CleaningFixesIdentifiers(value: Option<string>, fallback: string)
    requires IsIdentifier(fallback)
    ensures IsIdentifier(Clean(value, fallback))
    ensures value.Some? ==> (Clean(value, fallback) == value.value <==> IsIdentifier(value.value))
    ensures Clean(Some(Clean(value, fallback)), fallback) == Clean(value, fallback)
  {
    hide Clean, IsIdentifier;
    CleanIsIdentifier(value, fallback);
    CleanKeepsIdentifiers(Clean(value, fallback), fallback);
    if value.Some? && IsIdentifier(value.value) {
      CleanKeepsIdentifiers(value.value, fallback);
    }
  }

  function LowerChar(c: char): char
  {
    if 'A' <= c <= 'Z' then c + 32 as char else c
  }

  function Lower(s: string): (t: string)
    ensures |t| == |s| && forall i :: 0 <= i < |s| ==> t[i] == LowerChar(s[i])
  {
    seq(|s|, i requires 0 <= i < |s| => LowerChar(s[i]))
  }

  predicate IsLowerIdentifier(s: string)
  {
    IsIdentifier(s) && Lower(s) == s
  }

  lemma LowerOfIdentifier(s: string)
    requires IsIdentifier(s)
    ensures IsLowerIdentifier(Lower(s))
  {
    assert Lower(Lower(s)) == Lower(s);
  }

  // ---- Session keys ------------------------------------------------------------------

  datatype ChannelContext = ChannelContext(
    channel: string, adapter: string, account: string, conversation: string, sender: string)

  /** `__post_init__`: every component is cleaned. */
  function NewContext(channel: Option<string>, adapter: Option<string>, account: Option<string>,
                      conversation: Option<string>, sender: Option<string>): ChannelContext
  {
    ChannelContext(Clean(channel, "unknown"), Clean(adapter, "unknown"), Clean(account, "unknown"),
                   Clean(conversation, "unknown"), Clean(sender, "unknown"))
  }

  function Components(c: ChannelContext): (parts: seq<string>)
  {
    [c.channel, c.adapter, c.account, c.conversation, c.sender]
  }

  predicate IsContext(c: ChannelContext)
  {
    forall i :: 0 <= i < |Components(c)| ==> IsIdentifier(Components(c)[i])
  }

  lemma NewContextsAreClean(channel: Option<string>, adapter: Option<string>, account: Option<string>,
                            conversation: Option<string>, sender: Option<string>)
    ensures IsContext(NewContext(channel, adapter, account, conversation, sender))
  {
    hide Clean, IsIdentifier;
    assert IsIdentifier("unknown") by { UnknownIsIdentifier(); }
    CleanIsIdentifier(channel, "unknown");
    CleanIsIdentifier(adapter, "unknown");
    CleanIsIdentifier(account, "unknown");
    CleanIsIdentifier(conversation, "unknown");
    CleanIsIdentifier(sender, "unknown");
  }

  /** Building a context from clean parts keeps each in its place. */
  lemma CleanContextsAreKept(c: ChannelContext)
    requires IsContext(c)
    ensures NewContext(Some(c.channel), Some(c.adapter), Some(c.account), Some(c.conversation), Some(c.sender)) == c
  {
    hide Clean, IsIdentifier;
    var parts := Components(c);
    assert parts[0] == c.channel && parts[1] == c.adapter && parts[2] == c.account && parts[3] == c.conversation
           && parts[4] == c.sender;
    forall i | 0 <= i < 5 ensures Clean(Some(parts[i]), "unknown") == parts[i] {
      CleanKeepsIdentifiers(parts[i], "unknown");
    }
  }

  lemma UnknownIsIdentifier()
    ensures IsIdentifier("unknown")
  {
  }

  /** `quote` with the safe characters `._:@-`: in an identifier it escapes the slash alone. */
  function Quote(s: string): string
  {
    if s == "" then "" else (if s[0] == '/' then "%2F" else [s[0]]) + Quote(s[1..])
  }

  function QuoteAll(parts: seq<string>): (r: seq<string>)
    ensures |r| == |parts| && forall i :: 0 <= i < |r| ==> r[i] == Quote(parts[i])
  {
    seq(|parts|, i requires 0 <= i < |parts| => Quote(parts[i]))
  }

  function SessionKey(c: ChannelContext): string
  {
    Join("/", QuoteAll(Components(c)))
  }

  function LegacySessionKey(c: ChannelContext): string
  {
    Join("/", Components(c))
  }

  lemma {:induction false} QuoteHidesSlashes(s: string)
    requires AllPlain(s)
    ensures '/' !in Quote(s)
    ensures '%' in Quote(s) <==> '/' in s
    ensures '/' !in s ==> Quote(s) == s
  {
    if s != "" {
      QuoteHidesSlashes(s[1..]);
      assert s == [s[0]] + s[1..];
    }
  }

  lemma {:induction false} QuoteIsInjective(s: string, t: string)
    requires AllPlain(s) && AllPlain(t) && Quote(s) == Quote(t)
    ensures s == t
  {
    if s != "" && t != "" {
      assert Quote(s)[0] == if s[0] == '/' then '%' else s[0];
      assert Quote(t)[0] == if t[0] == '/' then '%' else t[0];
      var n := if s[0] == '/' then 3 else 1;
      assert Quote(s)[n..] == Quote(s[1..]) && Quote(t)[n..] == Quote(t[1..]);
      QuoteIsInjective(s[1..], t[1..]);
      assert s == [s[0]] + s[1..] && t == [t[0]] + t[1..];
    }
  }

  /** A slash-free list is recovered from its joined text, against any list that is no shorter. */
  lemma {:induction false} JoinedIsInjective(a: seq<string>, b: seq<string>)
    requires a != [] && |a| <= |b| && Join("/", a) == Join("/", b)
    requires forall i :: 0 <= i < |a| ==> '/' !in a[i]
    ensures a == b
    decreases |a|
  {
    var text := Join("/", a);
    if |a| == 1 {
      if |b| > 1 {
        assert false;
      }
    } else {
      assert text[|a[0]|] == '/' && text[..|a[0]|] == a[0] && text[|a[0]| + 1..] == Join("/", a[1..]);
      assert text[..|b[0]|] == b[0] && text[|b[0]|] == '/' && text[|b[0]| + 1..] == Join("/", b[1..]);
      if |b[0]| < |a[0]| {
        assert false;
      } else if |b[0]| == |a[0]| {
        JoinedIsInjective(a[1..], b[1..]);
        assert a == [a[0]] + a[1..] && b == [b[0]] + b[1..];
      } else {
        var rest := b[0][|a[0]| + 1..];
        var shifted := [rest] + b[1..];
        assert shifted[1..] == b[1..];
        assert text[|a[0]| + 1..] == rest + "/" + Join("/", b[1..]);
        JoinedIsInjective(a[1..], shifted);
        assert false;
      }
    }
  }

  /** Two conversations never share a session key. */
  lemma SessionKeysAreUnique(c: ChannelContext, d: ChannelContext)
    requires IsContext(c) && IsContext(d) && SessionKey(c) == SessionKey(d)
    ensures c == d
  {
    var x, y := Components(c), Components(d);
    forall i | 0 <= i < 5 ensures '/' !in QuoteAll(x)[i] {
      QuoteHidesSlashes(x[i]);
    }
    JoinedIsInjective(QuoteAll(x), QuoteAll(y));
    forall i | 0 <= i < 5 ensures x[i] == y[i] {
      assert QuoteAll(x)[i] == QuoteAll(y)[i];
      QuoteIsInjective(x[i], y[i]);
    }
    assert x[0] == y[0] && x[1] == y[1] && x[2] == y[2] && x[3] == y[3] && x[4] == y[4];
  }

  lemma {:induction false} JoinedKeepsCharacters(parts: seq<string>, i: nat, ch: char)
    requires i < |parts| && ch in parts[i]
    ensures ch in Join("/", parts)
  {
    if |parts| > 1 {
      if i > 0 {
        JoinedKeepsCharacters(parts[1..], i - 1, ch);
      }
    }
  }

  lemma {:induction false} JoinedOfPlain(parts: seq<string>)
    requires parts != [] && forall i :: 0 <= i < |parts| ==> AllPlain(parts[i])
    ensures AllPlain(Join("/", parts))
  {
    if |parts| > 1 {
      JoinedOfPlain(parts[1..]);
    }
  }

  /**
   The fall-back to legacy keys is safe: a binding stored under the session key
   of one conversation is never found through the legacy key of another.
   */
  lemma LegacyKeysFindOnlyTheirOwn(c: ChannelContext, d: ChannelContext)
    requires IsContext(c) && IsContext(d) && SessionKey(c) == LegacySessionKey(d)
    ensures c == d
  {
    var x, y := Components(c), Components(d);
    JoinedOfPlain(y);
    forall i | 0 <= i < 5 ensures QuoteAll(x)[i] == x[i] && '/' !in x[i] {
      QuoteHidesSlashes(x[i]);
      if '/' in x[i] {
        JoinedKeepsCharacters(QuoteAll(x), i, '%');
        assert false;
      }
    }
    assert QuoteAll(x) == x;
    JoinedIsInjective(x, y);
    assert x[0] == y[0] && x[1] == y[1] && x[2] == y[2] && x[3] == y[3] && x[4] == y[4];
  }

  /** A conversation without slashes shares its legacy key with no other. */
  lemma PlainLegacyKeysAreUnique(c: ChannelContext, d: ChannelContext)
    requires forall part :: part in Components(c) ==> '/' !in part
    requires LegacySessionKey(c) == LegacySessionKey(d)
    ensures c == d
  {
    var x, y := Components(c), Components(d);
    forall i | 0 <= i < 5 ensures '/' !in x[i] {
      assert x[i] in x;
    }
    JoinedIsInjective(x, y);
    assert x[0] == y[0] && x[1] == y[1] && x[2] == y[2] && x[3] == y[3] && x[4] == y[4];
  }

  /** A slash inside a part cannot be told from one between parts. */
  lemma SlashMovesBetweenParts(a: string, b: string, c: string, tail: seq<string>)
    ensures Join("/", [a + "/" + b, c] + tail) == Join("/", [a, b + "/" + c] + tail)
  {
    var x, y := [a + "/" + b, c] + tail, [a, b + "/" + c] + tail;
    assert x[1..] == [c] + tail && y[1..] == [b + "/" + c] + tail;
    assert ([c] + tail)[1..] == tail == ([b + "/" + c] + tail)[1..];
    var end := if tail == [] then "" else "/" + Join("/", tail);
    assert Join("/", [c] + tail) == c + end && Join("/", [b + "/" + c] + tail) == b + "/" + c + end;
    assert a + "/" + b + ("/" + (c + end)) == a + ("/" + (b + "/" + c + end));
  }

  /**
   Legacy keys themselves collide: what stands behind a slash in the adapter's
   name may as well belong to the account, if the name it leaves is not empty
   and the one it makes is not too long.
   */
  lemma LegacyKeysCollide(c: ChannelContext, a: string, b: string)
    requires IsContext(c) && c.adapter == a + "/" + b
    requires a != "" && |b| + 1 + |c.account| <= MAX_IDENTIFIER
    ensures var d := c.(adapter := a, account := b + "/" + c.account);
            IsContext(d) && d != c && LegacySessionKey(c) == LegacySessionKey(d)
  {
    hide LegacySessionKey;
    var d := c.(adapter := a, account := b + "/" + c.account);
    MovedIsContext(c, a, b);
    assert |d.adapter| < |c.adapter|;
    MovedKeyIsSame(c, a, b);
  }

  lemma MovedKeyIsSame(c: ChannelContext, a: string, b: string)
    requires c.adapter == a + "/" + b
    ensures LegacySessionKey(c) == LegacySessionKey(c.(adapter := a, account := b + "/" + c.account))
  {
    var d := c.(adapter := a, account := b + "/" + c.account);
    var tail := [c.conversation, c.sender];
    assert Components(c)[1..] == [a + "/" + b, c.account] + tail;
    assert Components(d)[1..] == [a, b + "/" + c.account] + tail;
    SlashMovesBetweenParts(a, b, c.account, tail);
  }

  lemma MovedIsContext(c: ChannelContext, a: string, b: string)
    requires IsContext(c) && c.adapter == a + "/" + b && a != "" && |b| + 1 + |c.account| <= MAX_IDENTIFIER
    ensures IsContext(c.(adapter := a, account := b + "/" + c.account))
  {
    var d := c.(adapter := a, account := b + "/" + c.account);
    var x, y := Components(c), Components(d);
    assert IsIdentifier(x[0]) && IsIdentifier(x[1]) && IsIdentifier(x[2]) && IsIdentifier(x[3]) && IsIdentifier(x[4]);
    forall i | 0 <= i < |a| ensures IsPlain(a[i]) {
      assert c.adapter[i] == a[i];
    }
    forall i | 0 <= i < |d.account| ensures IsPlain(d.account[i]) {
      assert i < |b| ==> c.adapter[|a| + 1 + i] == b[i];
      assert i > |b| ==> d.account[i] == c.account[i - |b| - 1];
    }
    assert IsIdentifier(y[1]) && IsIdentifier(y[2]);
  }
}
