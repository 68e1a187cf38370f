/**
 * The label a `task-failed` event is counted under: the exception's class
 * name is the text before the first '(' of the event's `exception` field
 * ("Unknown" when the field is missing), and only `MaxRetriesExceededError`
 * is singled out.
 */
module FailureLabel {
  import opened Wrappers

  const MaxRetriesExceeded: string := "MaxRetriesExceededError"
  const UnknownException: string := "Unknown"

  const Failed: string := "failed"
  const RetriesExceeded: string := "retries-exceeded"

  /** Python's `s.split('(')[0]`: the longest prefix of `s` without '('. */
  function BeforeParen(s: string): (r: string)
    ensures r <= s
    ensures '(' !in r
    ensures |r| < |s| ==> s[|r|] == '('
  {
    if s == [] || s[0] == '(' then [] else [s[0]] + BeforeParen(s[1..])
  }

  /** The three facts above pin the prefix down: no other prefix has them. */
  lemma BeforeParenUnique(s: string, p: string)
    requires p <= s
    requires '(' !in p
    requires |p| < |s| ==> s[|p|] == '('
    ensures BeforeParen(s) == p
  {
  }

  /** `event.get('exception', 'Unknown').split('(')[0]`. */
  function ExceptionName(exception: Option<string>): (name: string)
    ensures '(' !in name
    ensures exception.Some? ==> name <= exception.value
    ensures exception.Some? && |name| < |exception.value| ==> exception.value[|name|] == '('
    ensures exception.None? ==> name == UnknownException
  {
    BeforeParenUnique(UnknownException, UnknownException);
    BeforeParen(exception.GetOr(UnknownException))
  }

  /** The `state` label `on_task_failed` counts the event under. */
  function FailureState(exception: Option<string>): (state: string)
    ensures state == Failed || state == RetriesExceeded
    ensures exception.None? ==> state == Failed
  {
    if ExceptionName(exception) == MaxRetriesExceeded then RetriesExceeded else Failed
  }

  /** A prefix followed by a character of `s` extends to a longer prefix, and back. */
  lemma PrefixThen(s: string, p: string, c: char)
    ensures (p <= s && |p| < |s| && s[|p|] == c) <==> p + [c] <= s
  {
    if p + [c] <= s {
      assert s[..|p|] == (p + [c])[..|p|] == p;
    }
    if p <= s && |p| < |s| && s[|p|] == c {
      assert s[..|p| + 1] == s[..|p|] + [s[|p|]];
    }
  }

  /**
   * A failure is counted as `retries-exceeded` exactly when the exception
   * text is `MaxRetriesExceededError` alone or followed by '('; any other
   * text, and a missing field, count as `failed`.
   */
  lemma RetriesExceededIff(exception: Option<string>)
    ensures FailureState(exception) == RetriesExceeded
        <==> exception.Some? &&
             (exception.value == MaxRetriesExceeded || MaxRetriesExceeded + "(" <= exception.value)
  {
    if exception.Some? {
      var s := exception.value;
      var r := ExceptionName(exception);
      PrefixThen(s, MaxRetriesExceeded, '(');
      assert MaxRetriesExceeded + "(" == MaxRetriesExceeded + ['('];
      if r == MaxRetriesExceeded && s != MaxRetriesExceeded {
        assert |r| < |s|;
      }
      if MaxRetriesExceeded + "(" <= s || s == MaxRetriesExceeded {
        BeforeParenUnique(s, MaxRetriesExceeded);
      }
    }
  }
}
