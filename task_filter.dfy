/** The dashboard's `applyFilters`: a search query and two selectors narrow
    the task collection to the filtered view (Dashboard.jsx, lines 51-62). */
module TaskFilter {
  import opened Common
  import opened TaskModel

  /** A selector value: the sentinel 'ALL' or one exact value. */
  datatype Choice<T> = All | Only(value: T)

  /** The three inputs of the filter: the search box text and the two selectors. */
  datatype Criteria = Criteria(query: string, priority: Choice<Priority>, status: Choice<Status>)

  /** The characters `String.prototype.trim` removes: white space and line terminators. */
  predicate IsTrimmed(c: char) {
    c == ' ' || c == '\t' || c == '\n' || c == '\r' || c == '\U{B}' || c == '\U{C}'
    || c == '\U{A0}' || c == '\U{FEFF}' || c == '\U{1680}' || ('\U{2000}' <= c <= '\U{200A}')
    || c == '\U{2028}' || c == '\U{2029}' || c == '\U{202F}' || c == '\U{205F}' || c == '\U{3000}'
  }

  /** `query.trim()` is the empty string, so the query constrains nothing. */
  predicate IsBlank(query: string) {
    forall i | 0 <= i < |query| :: IsTrimmed(query[i])
  }

  /** `task.taskName?.toLowerCase().includes(query.toLowerCase())`: the
      untrimmed query is matched, and a task without a name never matches. */
  predicate NameMatches(query: string, t: Task) {
    t.taskName.Some? && Contains(Lower(t.taskName.value), Lower(query))
  }

  predicate Admits<T(==)>(choice: Choice<T>, v: T) {
    choice.All? || choice.value == v
  }

  /** The conjunction of the three constraints: the reference meaning of a
      task being in the filtered view. */
  predicate Keeps(c: Criteria, t: Task) {
    && (IsBlank(c.query) || NameMatches(c.query, t))
    && Admits(c.priority, t.priority)
    && Admits(c.status, t.status)
  }

  /** `Array.prototype.filter`: the elements satisfying keep, in order. */
  function Select<T>(s: seq<T>, keep: T -> bool): (r: seq<T>)
    ensures |r| <= |s|
  {
    if s == [] then [] else (if keep(s[0]) then [s[0]] else []) + Select(s[1..], keep)
  }

  function NameIncludes(query: string): Task -> bool {
    t => NameMatches(query, t)
  }

  function HasPriority(p: Priority): Task -> bool {
    (t: Task) => t.priority == p
  }

  function HasStatus(s: Status): Task -> bool {
    (t: Task) => t.status == s
  }

  function KeptBy(c: Criteria): Task -> bool {
    t => Keeps(c, t)
  }

  /** The filter chain as the dashboard runs it: each stage is applied only
      when its control is set. */
  function ApplyFilters(tasks: seq<Task>, c: Criteria): (r: seq<Task>)
    ensures |r| <= |tasks|
  {
    var byName := if IsBlank(c.query) then tasks else Select(tasks, NameIncludes(c.query));
    var byPriority := if c.priority.All? then byName else Select(byName, HasPriority(c.priority.value));
    if c.status.All? then byPriority else Select(byPriority, HasStatus(c.status.value))
  }

  /** r is s restricted to the positions idx, which ascend strictly. */
  ghost predicate Selects<T>(r: seq<T>, s: seq<T>, idx: seq<int>) {
    && |idx| == |r|
    && (forall k :: 0 <= k < |idx| ==> 0 <= idx[k] < |s| && r[k] == s[idx[k]])
    && (forall k, l :: 0 <= k < l < |idx| ==> idx[k] < idx[l])
  }

  ghost predicate IsSubsequence<T>(r: seq<T>, s: seq<T>) {
    exists idx :: Selects(r, s, idx)
  }

  function Shifted(idx: seq<int>): (r: seq<int>)
    ensures |r| == |idx| && forall k :: 0 <= k < |idx| ==> r[k] == idx[k] + 1
  {
    seq(|idx|, k requires 0 <= k < |idx| => idx[k] + 1)
  }

  /** The positions of s whose element satisfies keep, ascending. */
  function Positions<T>(s: seq<T>, keep: T -> bool): (idx: seq<int>)
    ensures forall k :: 0 <= k < |idx| ==> 0 <= idx[k] < |s|
  {
    if s == [] then [] else (if keep(s[0]) then [0] else []) + Shifted(Positions(s[1..], keep))
  }

  /** Positions in s[1..] shift by one when read in s. */
  lemma SelectsShift<T>(s: seq<T>, r: seq<T>, idx: seq<int>)
    requires |s| > 0 && Selects(r, s[1..], idx)
    ensures Selects(r, s, Shifted(idx))
    ensures forall k :: 0 <= k < |idx| ==> Shifted(idx)[k] > 0
  {
    forall k | 0 <= k < |idx|
      ensures r[k] == s[Shifted(idx)[k]]
    {
      assert s[1..][idx[k]] == s[idx[k] + 1];
    }
  }

  /** Keeping the first element as well prepends position 0. */
  lemma SelectsCons<T>(s: seq<T>, r: seq<T>, idx: seq<int>)
    requires |s| > 0 && Selects(r, s, idx)
    requires forall k :: 0 <= k < |idx| ==> idx[k] > 0
    ensures Selects([s[0]] + r, s, [0] + idx)
  {
  }

  /** Select takes its elements from the ascending positions Positions lists. */
  lemma {:induction false} PositionsSelect<T>(s: seq<T>, keep: T -> bool)
    ensures Selects(Select(s, keep), s, Positions(s, keep))
  {
    if s != [] {
      var rest := Positions(s[1..], keep);
      var tailR := Select(s[1..], keep);
      PositionsSelect(s[1..], keep);
      SelectsShift(s, tailR, rest);
      if keep(s[0]) {
        assert Select(s, keep) == [s[0]] + tailR;
        assert Positions(s, keep) == [0] + Shifted(rest);
        SelectsCons(s, tailR, Shifted(rest));
      } else {
        assert Select(s, keep) == tailR;
        assert Positions(s, keep) == Shifted(rest);
      }
    }
  }

  /** A position is listed exactly when its element satisfies keep. */
  lemma {:induction false} PositionsExact<T>(s: seq<T>, keep: T -> bool)
    ensures forall i :: 0 <= i < |s| ==> (i in Positions(s, keep) <==> keep(s[i]))
  {
    if s != [] {
      PositionsExact(s[1..], keep);
      var rest := Positions(s[1..], keep);
      var tail := Shifted(rest);
      var idx := Positions(s, keep);
      assert idx == (if keep(s[0]) then [0] else []) + tail;
      forall i | 0 <= i < |s|
        ensures i in idx <==> keep(s[i])
      {
        if i > 0 {
          assert s[1..][i - 1] == s[i];
          if i - 1 in rest {
            var k :| 0 <= k < |rest| && rest[k] == i - 1;
            assert tail[k] == i;
          }
          if i in tail {
            var k :| 0 <= k < |tail| && tail[k] == i;
            assert rest[k] == i - 1;
          }
        } else {
          assert 0 !in tail;
        }
      }
    }
  }

  /** Membership in a selection: present in the input and satisfying keep. */
  lemma {:induction false} SelectMembers<T>(s: seq<T>, keep: T -> bool, x: T)
    ensures x in Select(s, keep) <==> x in s && keep(x)
  {
    if s != [] {
      SelectMembers(s[1..], keep, x);
      assert s == [s[0]] + s[1..];
    }
  }

  /** A stage that runs only when `on` holds is a selection by `!on || keep`. */
  lemma {:induction false} StageIsSelect<T>(s: seq<T>, on: bool, keep: T -> bool, stage: T -> bool)
    requires forall x :: stage(x) == (!on || keep(x))
    ensures (if on then Select(s, keep) else s) == Select(s, stage)
  {
    if s != [] {
      StageIsSelect(s[1..], on, keep, stage);
      if !on {
        assert s == [s[0]] + s[1..];
      }
    }
  }

  /** Two selections in a row select by the conjunction. */
  lemma {:induction false} SelectTwice<T>(s: seq<T>, first: T -> bool, second: T -> bool, both: T -> bool)
    requires forall x :: both(x) == (first(x) && second(x))
    ensures Select(Select(s, first), second) == Select(s, both)
  {
    if s != [] {
      SelectTwice(s[1..], first, second, both);
      var rest := Select(s[1..], first);
      if first(s[0]) {
        assert Select(s, first) == [s[0]] + rest;
        assert Select(s, first)[1..] == rest;
      } else {
        assert Select(s, first) == rest;
      }
    }
  }

  /** The staged chain equals one pass of the conjunction of the constraints. */
  lemma ApplyFiltersIsOnePass(tasks: seq<Task>, c: Criteria)
    ensures ApplyFilters(tasks, c) == Select(tasks, KeptBy(c))
  {
    var byName: Task -> bool := (t: Task) => IsBlank(c.query) || NameMatches(c.query, t);
    var byPriority: Task -> bool := (t: Task) => Admits(c.priority, t.priority);
    var byStatus: Task -> bool := (t: Task) => Admits(c.status, t.status);
    var nameAndPriority: Task -> bool := (t: Task) => byName(t) && byPriority(t);
    StageIsSelect(tasks, !IsBlank(c.query), NameIncludes(c.query), byName);
    var s1 := Select(tasks, byName);
    StageIsSelect(s1, !c.priority.All?, HasPriority(if c.priority.Only? then c.priority.value else Low), byPriority);
    SelectTwice(tasks, byName, byPriority, nameAndPriority);
    var s2 := Select(tasks, nameAndPriority);
    StageIsSelect(s2, !c.status.All?, HasStatus(if c.status.Only? then c.status.value else Pending), byStatus);
    SelectTwice(tasks, nameAndPriority, byStatus, KeptBy(c));
  }

  /** A task is in the filtered view iff it is in the collection and meets
      every constraint. */
  lemma FilterMembers(tasks: seq<Task>, c: Criteria, t: Task)
    ensures t in ApplyFilters(tasks, c) <==> t in tasks && Keeps(c, t)
  {
    ApplyFiltersIsOnePass(tasks, c);
    SelectMembers(tasks, KeptBy(c), t);
  }

  /** The filtered view is the collection restricted, in order, to exactly
      the positions whose task meets the constraints. */
  lemma FilterPositions(tasks: seq<Task>, c: Criteria) returns (idx: seq<int>)
    ensures Selects(ApplyFilters(tasks, c), tasks, idx)
    ensures forall i :: 0 <= i < |tasks| ==> (i in idx <==> Keeps(c, tasks[i]))
  {
    ApplyFiltersIsOnePass(tasks, c);
    idx := Positions(tasks, KeptBy(c));
    PositionsSelect(tasks, KeptBy(c));
    PositionsExact(tasks, KeptBy(c));
  }

  /** The filtered view is an order-preserving subsequence of the collection. */
  lemma FilterIsSubsequence(tasks: seq<Task>, c: Criteria)
    ensures IsSubsequence(ApplyFilters(tasks, c), tasks)
  {
    var idx := FilterPositions(tasks, c);
  }

  /** Filtering the filtered view again with the same controls changes nothing. */
  lemma FilterIdempotent(tasks: seq<Task>, c: Criteria)
    ensures ApplyFilters(ApplyFilters(tasks, c), c) == ApplyFilters(tasks, c)
  {
    ApplyFiltersIsOnePass(tasks, c);
    ApplyFiltersIsOnePass(ApplyFilters(tasks, c), c);
    SelectTwice(tasks, KeptBy(c), KeptBy(c), KeptBy(c));
  }

  /** With a blank query and both selectors on 'ALL' the view is the whole collection. */
  lemma NoFilterKeepsAll(tasks: seq<Task>, query: string)
    requires IsBlank(query)
    ensures ApplyFilters(tasks, Criteria(query, All, All)) == tasks
  {
  }

  /** A string shorter than q cannot contain q. */
  lemma {:induction false} ShortNeverContains(s: string, q: string)
    requires |s| < |q|
    ensures !Contains(s, q)
  {
    if |s| > 0 {
      ShortNeverContains(s[1..], q);
    }
  }

  /** The search is case-insensitive: "report" finds "Report Q1" and
      "report Q2" but not "Budget". */
  lemma ReportScenario(a: Task, b: Task, d: Task)
    requires a.taskName == Some("Report Q1") && b.taskName == Some("report Q2") && d.taskName == Some("Budget")
    ensures ApplyFilters([a, b, d], Criteria("report", All, All)) == [a, b]
  {
    assert !IsTrimmed("report"[0]);
    assert Lower("report") == "report";
    assert forall i | 0 <= i < 6 :: Lower("Report Q1")[i] == "report"[i];
    assert "report" <= Lower("Report Q1");
    assert "report" <= Lower("report Q2");
    var budget := Lower("Budget");
    assert budget[0] == 'b';
    assert !Contains(budget, "report") by {
      ShortNeverContains(budget[1..], "report");
    }
    assert Select([a, b, d], NameIncludes("report")) == [a] + Select([b, d], NameIncludes("report"));
    assert [b, d][1..] == [d];
    assert [d][1..] == [];
  }
}
