/**
 * The one regular expression the service uses, `com.android.settings:id/.*button.*`,
 * applied with Kotlin's `String.matches` (a full match). Its two dots are
 * unescaped and so match any character that is not a line terminator, as
 * does every `.` in the two `.*`.
 */
module ButtonIdPattern {

  /**
   * The characters `.` does not match by default in Android's
   * `java.util.regex`, which runs on ICU: line feed, vertical tab, form
   * feed, carriage return, next line and the line and paragraph separators.
   */
  predicate IsLineTerminator(c: char) {
    c == '\n' || c == '\U{000B}' || c == '\U{000C}' || c == '\r' || c == '\U{0085}' || c == '\U{2028}' || c == '\U{2029}'
  }

  predicate NoLineTerminator(s: string) {
    forall i :: 0 <= i < |s| ==> !IsLineTerminator(s[i])
  }

  predicate ButtonAt(s: string, i: int) {
    0 <= i && i + 6 <= |s| && s[i..i + 6] == "button"
  }

  /** Whether "button" occurs in `s` at some position from `from` on. */
  function ContainsButtonFrom(s: string, from: nat): (r: bool)
    ensures r <==> exists i :: from <= i && ButtonAt(s, i)
    decreases |s| - from
  {
    if from + 6 > |s| then false
    else ButtonAt(s, from) || ContainsButtonFrom(s, from + 1)
  }

  /**
   * The matcher: the fixed prefix with its two wildcard positions, then a
   * tail without line terminators that contains "button".
   */
  predicate MatchesButtonId(id: string) {
    && |id| >= 24
    && id[..3] == "com" && !IsLineTerminator(id[3])
    && id[4..11] == "android" && !IsLineTerminator(id[11])
    && id[12..24] == "settings:id/"
    && NoLineTerminator(id[24..])
    && ContainsButtonFrom(id[24..], 0)
  }

  /** The string the pattern spells when its wildcards take the values `a`, `b`, `x` and `y`. */
  function PatternInstance(a: char, b: char, x: string, y: string): string {
    "com" + [a] + "android" + [b] + "settings:id/" + x + "button" + y
  }

  /** The reference meaning of a full match: some choice of the wildcards spells `id`. */
  ghost predicate FullyMatchesPattern(id: string) {
    exists a: char, b: char, x: string, y: string ::
      && id == PatternInstance(a, b, x, y)
      && !IsLineTerminator(a) && !IsLineTerminator(b)
      && NoLineTerminator(x) && NoLineTerminator(y)
  }

  lemma InstanceParts(a: char, b: char, x: string, y: string)
    ensures var id := PatternInstance(a, b, x, y);
      && |id| == 30 + |x| + |y|
      && id[..3] == "com" && id[3] == a && id[4..11] == "android" && id[11] == b
      && id[12..24] == "settings:id/" && id[24..] == x + "button" + y
  {
    var id := PatternInstance(a, b, x, y);
    var front := "com" + [a] + "android" + [b] + "settings:id/";
    assert |front| == 24;
    assert id == front + (x + "button" + y);
    assert id[..24] == front;
    assert front[..3] == "com" && front[3] == a && front[4..11] == "android";
    assert front[11] == b && front[12..24] == "settings:id/";
  }

  /** The matcher accepts exactly the full matches of the pattern. */
  lemma MatchesButtonIdIsFullMatch(id: string)
    ensures MatchesButtonId(id) <==> FullyMatchesPattern(id)
  {
    if MatchesButtonId(id) {
      var tail := id[24..];
      var i :| 0 <= i && ButtonAt(tail, i);
      var a, b, x, y := id[3], id[11], tail[..i], tail[i + 6..];
      assert tail == x + "button" + y;
      InstanceParts(a, b, x, y);
      var inst := PatternInstance(a, b, x, y);
      assert inst[..24] == id[..24] by {
        forall k | 0 <= k < 24 ensures inst[k] == id[k] {
          if k < 3 { assert inst[k] == inst[..3][k]; assert id[k] == id[..3][k]; }
          else if 4 <= k < 11 { assert inst[k] == inst[4..11][k - 4]; assert id[k] == id[4..11][k - 4]; }
          else if 12 <= k { assert inst[k] == inst[12..24][k - 12]; assert id[k] == id[12..24][k - 12]; }
        }
      }
      assert id == id[..24] + id[24..];
      assert inst == inst[..24] + inst[24..];
      forall k | 0 <= k < |x| ensures !IsLineTerminator(x[k]) { assert x[k] == tail[k]; }
      forall k | 0 <= k < |y| ensures !IsLineTerminator(y[k]) { assert y[k] == tail[i + 6 + k]; }
      assert id == PatternInstance(a, b, x, y);
    }
    if FullyMatchesPattern(id) {
      var a: char, b: char, x: string, y: string :|
        && id == PatternInstance(a, b, x, y)
        && !IsLineTerminator(a) && !IsLineTerminator(b)
        && NoLineTerminator(x) && NoLineTerminator(y);
      InstanceParts(a, b, x, y);
      var tail := x + "button" + y;
      assert tail[|x|..|x| + 6] == "button";
      assert ButtonAt(tail, |x|);
      forall k | 0 <= k < |tail| ensures !IsLineTerminator(tail[k]) {
        if k < |x| { assert tail[k] == x[k]; }
        else if k < |x| + 6 { assert tail[k] == "button"[k - |x|]; }
        else { assert tail[k] == y[k - |x| - 6]; }
      }
    }
  }
}
