/**
 * The WeeChat signal `*,irc_in2_join` (`on_join`): when the joined server is
 * the configured one, the logs of the joined channel are fetched, the
 * channel being taken from the raw IRC line with
 * `data.sub(/.*JOIN (.*)$/, '\1')`.
 */
module Signals {
  import opened Wrappers
  import opened Strings

  const JoinWord: string := "JOIN "

  /** `s` holds `JOIN ` somewhere. */
  predicate HasJoin(s: string)
    decreases |s|
  {
    |s| >= |JoinWord| && (s[..|JoinWord|] == JoinWord || HasJoin(s[1..]))
  }

  /** What follows the last `JOIN ` of a line, if it has one. */
  function JoinSuffix(line: string): (r: Option<string>)
    ensures r.Some? ==> |r.value| + |JoinWord| <= |line| && line[|line| - |r.value|..] == r.value
    decreases |line|
  {
    if |line| < |JoinWord| then None
    else
      var later := JoinSuffix(line[1..]);
      if later.Some? then later
      else if line[..|JoinWord|] == JoinWord then Some(line[|JoinWord|..])
      else None
  }

  /** A line has a suffix exactly when it holds `JOIN `. */
  lemma {:induction false} JoinSuffixFound(line: string)
    ensures JoinSuffix(line).Some? <==> HasJoin(line)
    decreases |line|
  {
    if |line| >= |JoinWord| {
      JoinSuffixFound(line[1..]);
    }
  }

  /**
   * The suffix is what follows an occurrence of `JOIN ` that ends the line's
   * last such occurrence: the line is some prefix, `JOIN `, then the suffix,
   * and the suffix holds no `JOIN ` of its own.
   */
  lemma {:induction false} JoinSuffixSplits(line: string)
    requires JoinSuffix(line).Some?
    ensures var t := JoinSuffix(line).value;
      && |t| + |JoinWord| <= |line|
      && line[|line| - |t| - |JoinWord|..|line| - |t|] == JoinWord
      && line[|line| - |t|..] == t
      && !HasJoin(t)
    decreases |line|
  {
    var later := JoinSuffix(line[1..]);
    if later.Some? {
      JoinSuffixSplits(line[1..]);
    } else {
      JoinSuffixFound(line[1..]);
      assert line[|JoinWord|..] == line[1..][|JoinWord| - 1..];
      NoJoinInSuffix(line[1..], |JoinWord| - 1);
    }
  }

  /** A string without `JOIN ` has none in any of its suffixes. */
  lemma {:induction false} NoJoinInSuffix(s: string, k: nat)
    requires k <= |s| && !HasJoin(s)
    ensures !HasJoin(s[k..])
    decreases k
  {
    if k > 0 {
      assert s[k..] == s[1..][k - 1..];
      NoJoinInSuffix(s[1..], k - 1);
    }
  }

  /** Conversely, whatever follows `JOIN ` is the suffix when it holds no `JOIN ` itself. */
  lemma {:induction false} JoinSuffixOf(pre: string, post: string)
    requires !HasJoin(post)
    ensures JoinSuffix(pre + JoinWord + post) == Some(post)
    decreases |pre|
  {
    var line := pre + JoinWord + post;
    if pre == [] {
      assert line[..|JoinWord|] == JoinWord && line[|JoinWord|..] == post;
      assert line[1..] == JoinWord[1..] + post;
      NotJoinAfterFirst(post);
      JoinSuffixFound(line[1..]);
    } else {
      assert line[1..] == pre[1..] + JoinWord + post;
      JoinSuffixOf(pre[1..], post);
    }
  }

  /** `OIN ` followed by a string without `JOIN ` holds no `JOIN `. */
  lemma NotJoinAfterFirst(post: string)
    requires !HasJoin(post)
    ensures !HasJoin(JoinWord[1..] + post)
  {
    var s := JoinWord[1..] + post;
    assert s[1..] == JoinWord[2..] + post;
    assert s[1..][1..] == JoinWord[3..] + post;
    assert s[1..][1..][1..] == JoinWord[4..] + post;
    assert s[1..][1..][1..][1..] == post;
    NotJoinAtStart(s[1..][1..][1..]);
    NotJoinAtStart(s[1..][1..]);
    NotJoinAtStart(s[1..]);
    NotJoinAtStart(s);
  }

  /** `JOIN ` cannot start where the string does not start with `J`. */
  lemma NotJoinAtStart(s: string)
    requires |s| > 0 && s[0] != JoinWord[0]
    ensures HasJoin(s) == HasJoin(s[1..])
  {
    if |s| >= |JoinWord| {
      assert s[..|JoinWord|][0] != JoinWord[0];
    }
  }

  /**
   * `data.sub(/.*JOIN (.*)$/, '\1')`: `.` stops at a newline and `$` matches
   * before one, so the first line holding `JOIN ` is replaced by what
   * follows its last `JOIN `; data without one is returned unchanged.
   */
  function ChannelOf(data: string): (r: string)
    ensures |r| <= |data|
    decreases |data|
  {
    match IndexOf(data, '\n')
    case None =>
      (match JoinSuffix(data)
       case Some(s) => s
       case None => data)
    case Some(nl) =>
      match JoinSuffix(data[..nl])
      case Some(s) => s + data[nl..]
      case None => data[..nl + 1] + ChannelOf(data[nl + 1..])
  }

  /** On a single line, the channel is what follows the last `JOIN `. */
  lemma ChannelOfLine(pre: string, channel: string)
    requires '\n' !in pre && '\n' !in channel && !HasJoin(channel)
    ensures ChannelOf(pre + JoinWord + channel) == channel
  {
    var data := pre + JoinWord + channel;
    assert '\n' !in data by {
      assert forall i :: 0 <= i < |data| ==> data[i] in pre || data[i] in JoinWord || data[i] in channel;
    }
    JoinSuffixOf(pre, channel);
  }

  /**
   * On data of several lines whose first line holds `JOIN `, only that line
   * is rewritten: the lines after it come back unchanged.
   */
  lemma ChannelOfFirstLine(pre: string, channel: string, rest: string)
    requires '\n' !in pre && '\n' !in channel && !HasJoin(channel)
    ensures ChannelOf(pre + JoinWord + channel + "\n" + rest) == channel + "\n" + rest
  {
    var line := pre + JoinWord + channel;
    var data := line + "\n" + rest;
    assert '\n' !in line by {
      assert forall i :: 0 <= i < |line| ==> line[i] in pre || line[i] in JoinWord || line[i] in channel;
    }
    assert data[..|line|] == line && data[|line|..] == "\n" + rest;
    assert data[|line|] == '\n';
    assert forall j :: 0 <= j < |line| ==> data[j] == line[j];
    assert IndexOf(data, '\n') == Some(|line|);
    JoinSuffixOf(pre, channel);
  }

  /** A first line without `JOIN ` is kept, and the rest of the data is rewritten on its own. */
  lemma ChannelOfLaterLine(first: string, rest: string)
    requires '\n' !in first && !HasJoin(first)
    ensures ChannelOf(first + "\n" + rest) == first + "\n" + ChannelOf(rest)
  {
    var data := first + "\n" + rest;
    assert data[|first|] == '\n';
    assert forall j :: 0 <= j < |first| ==> data[j] == first[j];
    assert IndexOf(data, '\n') == Some(|first|);
    assert data[..|first|] == first && data[..|first| + 1] == first + "\n" && data[|first| + 1..] == rest;
    JoinSuffixFound(first);
  }

  /** Data without `JOIN ` comes back unchanged. */
  lemma {:induction false} ChannelOfNoJoin(data: string)
    requires !HasJoin(data)
    ensures ChannelOf(data) == data
    decreases |data|
  {
    match IndexOf(data, '\n')
    case None =>
      JoinSuffixFound(data);
    case Some(nl) =>
      NoJoinInPrefix(data, nl);
      JoinSuffixFound(data[..nl]);
      NoJoinInSuffix(data, nl + 1);
      ChannelOfNoJoin(data[nl + 1..]);
      assert data == data[..nl + 1] + data[nl + 1..];
  }

  /** A string without `JOIN ` has none in any of its prefixes. */
  lemma {:induction false} NoJoinInPrefix(s: string, k: nat)
    requires k <= |s| && !HasJoin(s)
    ensures !HasJoin(s[..k])
    decreases k
  {
    if k >= |JoinWord| {
      assert s[..k][..|JoinWord|] == s[..|JoinWord|];
      assert s[..k][1..] == s[1..][..k - 1];
      NoJoinInPrefix(s[1..], k - 1);
    }
  }

  /**
   * The server of a signal name, as `signal.split(',')` gives it first:
   * the text before the first comma, or nil when split drops every field
   * because all of them are empty.
   */
  function SignalServer(signal: string): (r: Option<string>)
    ensures r.None? <==> forall i :: 0 <= i < |signal| ==> signal[i] == ','
    ensures r.Some? ==> |r.value| <= |signal| && ',' !in r.value && signal[..|r.value|] == r.value
    ensures r.Some? && |r.value| < |signal| ==> signal[|r.value|] == ','
  {
    if forall i :: 0 <= i < |signal| ==> signal[i] == ',' then None
    else
      match IndexOf(signal, ',')
      case None => Some(signal)
      case Some(k) => Some(signal[..k])
  }

  /**
   * `on_join`: the filter to fetch logs with, when the signal comes from the
   * configured server; None when the signal is ignored.
   */
  function OnJoin(signal: string, data: string, server: string): (r: Option<string>)
    ensures r.Some? <==> SignalServer(signal) == Some(server)
    ensures r.Some? ==> r.value == ChannelOf(data)
  {
    match SignalServer(signal)
    case Some(joined) => if joined == server then Some(ChannelOf(data)) else None
    case None => None
  }
}
