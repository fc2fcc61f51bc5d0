/** Values shared by every component: optional values, the outcome of a
    call into a service, notifications, and the few JavaScript string
    operations the components rely on. */
module Common {

  datatype Option<+T> = None | Some(value: T)

  /** What an awaited service call produced: the resolved value, or a
      rejection carrying the server's error text when it sent one
      (`error.response?.data`, or its `message` field where a component
      reads that). */
  datatype Reply<+T> = Resolved(value: T) | Rejected(detail: Option<string>)

  /** The two notification types the application shows. */
  datatype Kind = Success | Error

  datatype Note = Note(message: string, kind: Kind)

  /** A call `showNotification(message)` or `showNotification(message, type)`:
      a call that omits the type shows a success notification. */
  function Notice(message: string, kind: Option<Kind>): (n: Note)
    ensures n.message == message
    ensures n.kind == Error <==> kind == Some(Error)
  {
    Note(message, if kind.Some? then kind.value else Success)
  }

  /** A string that is present and non-empty, which is what JavaScript
      treats as truthy. */
  predicate Truthy(value: Option<string>) {
    value.Some? && value.value != ""
  }

  /** `value || fallback` for a value that is absent or a string. */
  function OrElse(value: Option<string>, fallback: string): (r: string)
    ensures Truthy(value) ==> r == value.value
    ensures !Truthy(value) ==> r == fallback
  {
    if Truthy(value) then value.value else fallback
  }

  /** `toLowerCase` restricted to ASCII letters. */
  function LowerChar(c: char): (d: char)
    ensures 'A' <= c <= 'Z' ==> 'a' <= d <= 'z' && d as int - c as int == 32
    ensures !('A' <= c <= 'Z') ==> d == c
  {
    if 'A' <= c <= 'Z' then (c as int + 32) as char else c
  }

  function Lower(s: string): (r: string)
    ensures |r| == |s|
    ensures forall i :: 0 <= i < |s| ==> r[i] == LowerChar(s[i])
  {
    seq(|s|, i requires 0 <= i < |s| => LowerChar(s[i]))
  }

  /** `s.includes(q)`: q occurs somewhere in s. */
  predicate Contains(s: string, q: string)
    decreases |s|
  {
    q <= s || (|s| > 0 && Contains(s[1..], q))
  }

  /** Contains agrees with the positional reading of `includes`:
      some suffix of s starts with q. */
  lemma {:induction false} ContainsIffOccurs(s: string, q: string)
    ensures Contains(s, q) <==> exists i :: 0 <= i <= |s| && q <= s[i..]
  {
    if |s| == 0 {
      if Contains(s, q) {
        assert q <= s[0..];
      }
    } else {
      ContainsIffOccurs(s[1..], q);
      if exists i :: 0 <= i <= |s| && q <= s[i..] {
        var i :| 0 <= i <= |s| && q <= s[i..];
        if i > 0 {
          assert s[1..][i - 1..] == s[i..];
        } else {
          assert s[0..] == s;
        }
      }
      if Contains(s[1..], q) {
        var j :| 0 <= j <= |s[1..]| && q <= s[1..][j..];
        assert s[1..][j..] == s[j + 1..];
      }
      if q <= s {
        assert s[0..] == s;
      }
    }
  }

  function Max(a: int, b: int): int {
    if a < b then b else a
  }

  function Min(a: int, b: int): int {
    if a < b then a else b
  }
}
