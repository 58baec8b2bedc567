/**
 * The part of .NET's `string.Format` that the SOAP handler relies on: a
 * composite format string whose format items are single-digit indices
 * `{0}` .. `{9}`, applied to an argument array whose elements may be null.
 * A null argument is formatted as the empty string.
 */
module Formatting {
  import opened Wrappers

  /** A string with no brace characters: no format items and no escapes. */
  predicate NoBraces(s: string)
  {
    forall i :: 0 <= i < |s| ==> s[i] != '{' && s[i] != '}'
  }

  lemma NoBracesConcat(a: string, b: string)
    requires NoBraces(a) && NoBraces(b)
    ensures NoBraces(a + b)
  {
    forall i | 0 <= i < |a + b|
      ensures (a + b)[i] != '{' && (a + b)[i] != '}'
    {
      if i >= |a| {
        assert (a + b)[i] == b[i - |a|];
      }
    }
  }

  /** The format item `{k}`. */
  function Placeholder(k: nat): (r: string)
    requires k < 10
    ensures |r| == 3 && r[0] == '{' && r[2] == '}'
  {
    ['{', ('0' as int + k) as char, '}']
  }

  /** The text that one argument contributes: a null argument contributes nothing. */
  function ArgText(arg: Option<string>): string
  {
    match arg
    case None => ""
    case Some(s) => s
  }

  /** Replaces every format item `{d}` whose index is in range by the matching argument. */
  function Format(t: string, args: seq<Option<string>>): string
    decreases |t|
  {
    if |t| < 3 then t
    else if t[0] == '{' && '0' <= t[1] <= '9' && t[2] == '}' && (t[1] as int - '0' as int) < |args| then
      ArgText(args[t[1] as int - '0' as int]) + Format(t[3..], args)
    else
      [t[0]] + Format(t[1..], args)
  }

  /** Text without braces passes through formatting unchanged. */
  lemma {:induction false} FormatPlainText(s: string, args: seq<Option<string>>)
    requires NoBraces(s)
    ensures Format(s, args) == s
    decreases |s|
  {
    if |s| >= 3 {
      assert s[0] != '{';
      FormatPlainText(s[1..], args);
      assert [s[0]] + s[1..] == s;
    }
  }

  /**
   * A template with exactly one format item `{k}`, surrounded by plain text,
   * formats to that text with the k-th argument in place of the item.
   */
  lemma {:induction false} FormatSingleItem(pre: string, k: nat, post: string, args: seq<Option<string>>)
    requires k < 10 && k < |args|
    requires NoBraces(pre) && NoBraces(post)
    ensures Format(pre + Placeholder(k) + post, args) == pre + ArgText(args[k]) + post
    decreases |pre|
  {
    var t := pre + Placeholder(k) + post;
    if |pre| == 0 {
      assert t == Placeholder(k) + post;
      assert t[3..] == post;
      FormatPlainText(post, args);
    } else {
      assert t[0] == pre[0] && pre[0] != '{';
      assert t[1..] == pre[1..] + Placeholder(k) + post;
      FormatSingleItem(pre[1..], k, post, args);
      assert [pre[0]] + pre[1..] == pre;
    }
  }
}
