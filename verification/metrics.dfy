/** The evaluation metrics of evaluation/metrics.py: the four response
    checks, the scoring of one response against a test case's criteria, and
    the aggregate over a run. Scores and averages are exact rationals. */
module Metrics {
  import opened Common
  import opened TestCases

  // ------------------------------------------------------------- the checks

  /** `thai_chars`: the code points from U+0E00 up to, not including, U+0E7F. */
  predicate ThaiChar(c: char) {
    0x0E00 <= c as int < 0x0E7F
  }

  /** `check_thai_language`: some character of the text is Thai. */
  function CheckThaiLanguage(text: string): (r: bool)
    ensures r <==> exists i :: 0 <= i < |text| && ThaiChar(text[i])
    decreases |text|
  {
    if |text| == 0 then false
    else
      var rest := CheckThaiLanguage(text[1..]);
      assert rest ==> exists i :: 0 <= i < |text| && ThaiChar(text[i]) by {
        if rest {
          var i :| 0 <= i < |text[1..]| && ThaiChar(text[1..][i]);
          assert text[i + 1] == text[1..][i];
        }
      }
      assert (exists i :: 0 <= i < |text| && ThaiChar(text[i])) ==> ThaiChar(text[0]) || rest by {
        if exists i :: 0 <= i < |text| && ThaiChar(text[i]) {
          var i :| 0 <= i < |text| && ThaiChar(text[i]);
          if i > 0 {
            assert text[1..][i - 1] == text[i];
          }
        }
      }
      ThaiChar(text[0]) || rest
  }

  /** `check_tools_used`: every expected tool was called (vacuously so when
      none is expected). */
  function CheckToolsUsed(expected: seq<string>, actual: seq<string>): (r: bool)
    ensures r <==> forall i :: 0 <= i < |expected| ==> expected[i] in actual
    decreases |expected|
  {
    if |expected| == 0 then true
    else
      var rest := CheckToolsUsed(expected[1..], actual);
      assert forall i :: 1 <= i < |expected| ==> expected[i] == expected[1..][i - 1];
      expected[0] in actual && rest
  }

  /** Some indicator occurs in the text. */
  function AnyIndicator(text: string, indicators: seq<string>): (r: bool)
    ensures r <==> exists i :: 0 <= i < |indicators| && Contains(text, indicators[i])
    decreases |indicators|
  {
    if |indicators| == 0 then false
    else
      var rest := AnyIndicator(text, indicators[1..]);
      assert forall i :: 1 <= i < |indicators| ==> indicators[i] == indicators[1..][i - 1];
      assert rest ==> exists i :: 0 <= i < |indicators| && Contains(text, indicators[i]) by {
        if rest {
          var i :| 0 <= i < |indicators[1..]| && Contains(text, indicators[1..][i]);
          assert indicators[i + 1] == indicators[1..][i];
        }
      }
      Contains(text, indicators[0]) || rest
  }

  /** The step indicators of `check_actionable_steps`. */
  const STEP_INDICATORS: seq<string> := ["1.", "2.", "ขั้นตอน", "วิธี", "step"]

  /** The question indicators of the clarifying-questions criterion. */
  const QUESTION_INDICATORS: seq<string> := ["?", "ไหม", "หรือ", "อะไร", "ช่วย"]

  /** `check_actionable_steps`: a step indicator occurs in the lowercased text. */
  function CheckActionableSteps(text: string): (ok: bool)
    ensures ok <==> exists i :: 0 <= i < |STEP_INDICATORS| && Contains(Lower(text), STEP_INDICATORS[i])
  {
    AnyIndicator(Lower(text), STEP_INDICATORS)
  }

  /** A numbered list counts as actionable steps, and so does the word
      "step" in any letter case. */
  lemma ActionableStepsExamples(text: string, i: int)
    ensures OccursAt(text, "1.", i) ==> CheckActionableSteps(text)
    ensures OccursAt(text, "Step", i) ==> CheckActionableSteps(text)
  {
    var low := Lower(text);
    if OccursAt(text, "1.", i) {
      assert low[i..i + 2] == "1.";
      assert OccursAt(low, "1.", i);
      ContainsAt(low, "1.");
      assert Contains(low, STEP_INDICATORS[0]);
    }
    if OccursAt(text, "Step", i) {
      forall k | 0 <= k < 4 ensures low[i + k] == "step"[k] {
        assert text[i + k] == "Step"[k];
      }
      assert low[i..i + 4] == "step";
      assert OccursAt(low, "step", i);
      ContainsAt(low, "step");
      assert Contains(low, STEP_INDICATORS[4]);
    }
  }

  /** `check_ticket_id`: the pattern `#\d+` matches, that is, a '#' is
      directly followed by a digit. */
  function CheckTicketId(text: string): (r: bool)
    ensures r <==> exists i :: 0 <= i < |text| - 1 && text[i] == '#' && IsDigit(text[i + 1])
    decreases |text|
  {
    if |text| < 2 then false
    else
      var rest := CheckTicketId(text[1..]);
      assert rest ==> exists i :: 0 <= i < |text| - 1 && text[i] == '#' && IsDigit(text[i + 1]) by {
        if rest {
          var i :| 0 <= i < |text[1..]| - 1 && text[1..][i] == '#' && IsDigit(text[1..][i + 1]);
          assert text[i + 1] == text[1..][i] && text[i + 2] == text[1..][i + 1];
        }
      }
      assert (exists i :: 0 <= i < |text| - 1 && text[i] == '#' && IsDigit(text[i + 1]))
             ==> (text[0] == '#' && IsDigit(text[1])) || rest by {
        if exists i :: 0 <= i < |text| - 1 && text[i] == '#' && IsDigit(text[i + 1]) {
          var i :| 0 <= i < |text| - 1 && text[i] == '#' && IsDigit(text[i + 1]);
          if i > 0 {
            assert text[1..][i - 1] == text[i] && text[1..][i] == text[i + 1];
          }
        }
      }
      (text[0] == '#' && IsDigit(text[1])) || rest
  }

  /** The clarifying-questions criterion: a question indicator occurs in the
      response as written (it is not lowercased). */
  function AsksClarifyingQuestions(response: string): bool {
    AnyIndicator(response, QUESTION_INDICATORS)
  }

  // --------------------------------------------------- the criteria results

  /** The `results` dictionary: criterion names and outcomes in insertion order. */
  type Checks = seq<(string, bool)>

  function Names(rs: Checks): seq<string> {
    MapSeq(rs, (e: (string, bool)) => e.0)
  }

  /** `results.get(k)`. */
  function Get(rs: Checks, k: string): (r: Option<bool>)
    ensures r.Some? <==> k in Names(rs)
    decreases |rs|
  {
    if |rs| == 0 then None
    else
      assert Names(rs) == [rs[0].0] + Names(rs[1..]);
      if rs[0].0 == k then Some(rs[0].1) else Get(rs[1..], k)
  }

  lemma NamesCons(e: (string, bool), rest: Checks)
    ensures Names([e] + rest) == [e.0] + Names(rest)
  {
  }

  lemma GetCons(e: (string, bool), rest: Checks, x: string)
    ensures Get([e] + rest, x) == if e.0 == x then Some(e.1) else Get(rest, x)
  {
    assert ([e] + rest)[0] == e;
    assert ([e] + rest)[1..] == rest;
  }

  /** `results[k] = v`: an existing entry is replaced in place, a new one appended. */
  function Put(rs: Checks, k: string, v: bool): (r: Checks)
    ensures k in Names(rs) ==> Names(r) == Names(rs)
    ensures k !in Names(rs) ==> Names(r) == Names(rs) + [k]
    decreases |rs|
  {
    if |rs| == 0 then [(k, v)]
    else if rs[0].0 == k then
      NamesCons((k, v), rs[1..]);
      NamesCons(rs[0], rs[1..]);
      assert rs == [rs[0]] + rs[1..];
      [(k, v)] + rs[1..]
    else
      var rest := Put(rs[1..], k, v);
      NamesCons(rs[0], rs[1..]);
      NamesCons(rs[0], rest);
      assert rs == [rs[0]] + rs[1..];
      [rs[0]] + rest
  }

  /** After `results[k] = v`, k maps to v and every other name as before. */
  lemma {:induction false} PutGet(rs: Checks, k: string, v: bool)
    ensures Get(Put(rs, k, v), k) == Some(v)
    ensures forall x :: x != k ==> Get(Put(rs, k, v), x) == Get(rs, x)
    decreases |rs|
  {
    if |rs| > 0 {
      assert rs == [rs[0]] + rs[1..];
      forall x ensures Get(rs, x) == if rs[0].0 == x then Some(rs[0].1) else Get(rs[1..], x) {
        GetCons(rs[0], rs[1..], x);
      }
      if rs[0].0 == k {
        forall x ensures Get(Put(rs, k, v), x) == if k == x then Some(v) else Get(rs[1..], x) {
          GetCons((k, v), rs[1..], x);
        }
      } else {
        PutGet(rs[1..], k, v);
        forall x ensures Get(Put(rs, k, v), x) == if rs[0].0 == x then Some(rs[0].1) else Get(Put(rs[1..], k, v), x) {
          GetCons(rs[0], Put(rs[1..], k, v), x);
        }
      }
    }
  }

  /** `results.update(extra)`, for a dictionary `extra`. */
  function Update(rs: Checks, extra: Checks): (r: Checks)
    requires NoDup(Names(extra))
    ensures forall x :: Get(r, x) == if x in Names(extra) then Get(extra, x) else Get(rs, x)
    ensures forall x :: x in Names(r) <==> x in Names(rs) || x in Names(extra)
    ensures Names(rs) <= Names(r)
    decreases |extra|
  {
    if |extra| == 0 then rs
    else
      var tail := extra[1..];
      NamesTail(extra);
      PutGet(rs, extra[0].0, extra[0].1);
      Update(Put(rs, extra[0].0, extra[0].1), tail)
  }

  /** The names of a non-empty dictionary: the first, then the rest's, none
      of which repeats the first. */
  lemma NamesTail(extra: Checks)
    requires |extra| > 0 && NoDup(Names(extra))
    ensures Names(extra) == [extra[0].0] + Names(extra[1..])
    ensures NoDup(Names(extra[1..])) && extra[0].0 !in Names(extra[1..])
  {
    var tail := extra[1..];
    assert Names(extra) == [extra[0].0] + Names(tail);
    forall i, j | 0 <= i < j < |tail| ensures Names(tail)[i] != Names(tail)[j] {
      assert Names(extra)[i + 1] != Names(extra)[j + 1];
    }
    forall j | 0 <= j < |tail| ensures Names(tail)[j] != extra[0].0 {
      assert Names(extra)[0] != Names(extra)[j + 1];
    }
  }

  /** `sum(1 for v in results.values() if v)`. */
  function TrueCount(rs: Checks): (n: nat)
    ensures n <= |rs|
    decreases |rs|
  {
    if |rs| == 0 then 0 else TrueCount(rs[..|rs| - 1]) + (if rs[|rs| - 1].1 then 1 else 0)
  }

  /** The names of the six criteria the evaluator computes itself, in the
      order it computes them. */
  const COMPUTED_CRITERIA: seq<string> := [
    "uses_correct_tool", "responds_in_thai", "provides_actionable_steps",
    "includes_ticket_id", "does_not_call_unnecessary_tools", "asks_clarifying_questions"]

  /** What each computed criterion checks. */
  function Check(name: string, tc: TestCase, response: string, toolsCalled: seq<string>): bool {
    match name
    case "uses_correct_tool" => CheckToolsUsed(tc.expectedTools, toolsCalled)
    case "responds_in_thai" => CheckThaiLanguage(response)
    case "provides_actionable_steps" => CheckActionableSteps(response)
    case "includes_ticket_id" => CheckTicketId(response)
    case "does_not_call_unnecessary_tools" => |toolsCalled| == 0
    case "asks_clarifying_questions" => AsksClarifyingQuestions(response)
    case _ => false
  }

  /** The results for `names`, in order, of those the test case names. */
  function Picks(names: seq<string>, tc: TestCase, response: string, toolsCalled: seq<string>): Checks
    decreases |names|
  {
    if |names| == 0 then []
    else Only(tc.successCriteria, names[0], Check(names[0], tc, response, toolsCalled))
         + Picks(names[1..], tc, response, toolsCalled)
  }

  /** `results[name] = value` when the test case names the criterion. */
  function Only(criteria: seq<string>, name: string, value: bool): Checks {
    if name in criteria then [(name, value)] else []
  }

  /** The computed results written out criterion by criterion, as the
      evaluator sets them. */
  lemma ComputedUnfold(tc: TestCase, response: string, toolsCalled: seq<string>)
    ensures Computed(tc, response, toolsCalled)
            == Only(tc.successCriteria, "uses_correct_tool", CheckToolsUsed(tc.expectedTools, toolsCalled))
             + Only(tc.successCriteria, "responds_in_thai", CheckThaiLanguage(response))
             + Only(tc.successCriteria, "provides_actionable_steps", CheckActionableSteps(response))
             + Only(tc.successCriteria, "includes_ticket_id", CheckTicketId(response))
             + Only(tc.successCriteria, "does_not_call_unnecessary_tools", |toolsCalled| == 0)
             + Only(tc.successCriteria, "asks_clarifying_questions", AsksClarifyingQuestions(response))
  {
    var n := COMPUTED_CRITERIA;
    var c := tc.successCriteria;
    var o0 := Only(c, "uses_correct_tool", CheckToolsUsed(tc.expectedTools, toolsCalled));
    var o1 := Only(c, "responds_in_thai", CheckThaiLanguage(response));
    var o2 := Only(c, "provides_actionable_steps", CheckActionableSteps(response));
    var o3 := Only(c, "includes_ticket_id", CheckTicketId(response));
    var o4 := Only(c, "does_not_call_unnecessary_tools", |toolsCalled| == 0);
    var o5 := Only(c, "asks_clarifying_questions", AsksClarifyingQuestions(response));
    PicksSix(n, tc, response, toolsCalled);
    CheckNames(tc, response, toolsCalled);
    assert Computed(tc, response, toolsCalled) == o0 + (o1 + (o2 + (o3 + (o4 + o5))));
    Assoc(o0 + o1 + o2 + o3, o4, o5);
    Assoc(o0 + o1 + o2, o3, o4 + o5);
    Assoc(o0 + o1, o2, o3 + (o4 + o5));
    Assoc(o0, o1, o2 + (o3 + (o4 + o5)));
  }

  /** Each computed criterion's name selects its own check. */
  lemma CheckNames(tc: TestCase, response: string, toolsCalled: seq<string>)
    ensures COMPUTED_CRITERIA[0] == "uses_correct_tool"
            && Check(COMPUTED_CRITERIA[0], tc, response, toolsCalled) == CheckToolsUsed(tc.expectedTools, toolsCalled)
    ensures COMPUTED_CRITERIA[1] == "responds_in_thai"
            && Check(COMPUTED_CRITERIA[1], tc, response, toolsCalled) == CheckThaiLanguage(response)
    ensures COMPUTED_CRITERIA[2] == "provides_actionable_steps"
            && Check(COMPUTED_CRITERIA[2], tc, response, toolsCalled) == CheckActionableSteps(response)
    ensures COMPUTED_CRITERIA[3] == "includes_ticket_id"
            && Check(COMPUTED_CRITERIA[3], tc, response, toolsCalled) == CheckTicketId(response)
    ensures COMPUTED_CRITERIA[4] == "does_not_call_unnecessary_tools"
            && Check(COMPUTED_CRITERIA[4], tc, response, toolsCalled) == (|toolsCalled| == 0)
    ensures COMPUTED_CRITERIA[5] == "asks_clarifying_questions"
            && Check(COMPUTED_CRITERIA[5], tc, response, toolsCalled) == AsksClarifyingQuestions(response)
  {
  }

  /** Picking from six names, written out. */
  lemma PicksSix(n: seq<string>, tc: TestCase, response: string, toolsCalled: seq<string>)
    requires |n| == 6
    ensures Picks(n, tc, response, toolsCalled)
            == Only(tc.successCriteria, n[0], Check(n[0], tc, response, toolsCalled))
             + (Only(tc.successCriteria, n[1], Check(n[1], tc, response, toolsCalled))
             + (Only(tc.successCriteria, n[2], Check(n[2], tc, response, toolsCalled))
             + (Only(tc.successCriteria, n[3], Check(n[3], tc, response, toolsCalled))
             + (Only(tc.successCriteria, n[4], Check(n[4], tc, response, toolsCalled))
             + Only(tc.successCriteria, n[5], Check(n[5], tc, response, toolsCalled))))))
  {
    var c := tc.successCriteria;
    assert n[1..][1..] == n[2..] && n[2..][1..] == n[3..] && n[3..][1..] == n[4..];
    assert n[4..][1..] == n[5..] && n[5..][1..] == n[6..] && |n[6..]| == 0;
    assert n[1..][0] == n[1] && n[2..][0] == n[2] && n[3..][0] == n[3] && n[4..][0] == n[4] && n[5..][0] == n[5];
    assert Picks(n[6..], tc, response, toolsCalled) == [];
    var p5 := Picks(n[5..], tc, response, toolsCalled);
    assert p5 == Only(c, n[5], Check(n[5], tc, response, toolsCalled)) + Picks(n[6..], tc, response, toolsCalled);
    assert p5 == Only(c, n[5], Check(n[5], tc, response, toolsCalled));
    var p4 := Picks(n[4..], tc, response, toolsCalled);
    assert p4 == Only(c, n[4], Check(n[4], tc, response, toolsCalled)) + p5;
    var p3 := Picks(n[3..], tc, response, toolsCalled);
    assert p3 == Only(c, n[3], Check(n[3], tc, response, toolsCalled)) + p4;
    var p2 := Picks(n[2..], tc, response, toolsCalled);
    assert p2 == Only(c, n[2], Check(n[2], tc, response, toolsCalled)) + p3;
    var p1 := Picks(n[1..], tc, response, toolsCalled);
    assert p1 == Only(c, n[1], Check(n[1], tc, response, toolsCalled)) + p2;
  }

  /** The results the evaluator computes before any additional checks. */
  function Computed(tc: TestCase, response: string, toolsCalled: seq<string>): Checks {
    Picks(COMPUTED_CRITERIA, tc, response, toolsCalled)
  }

  lemma {:induction false} GetAppend(a: Checks, b: Checks, k: string)
    ensures Get(a + b, k) == if k in Names(a) then Get(a, k) else Get(b, k)
    decreases |a|
  {
    if |a| > 0 {
      assert (a + b)[0] == a[0];
      assert (a + b)[1..] == a[1..] + b;
      assert Names(a) == [a[0].0] + Names(a[1..]);
      assert Get(a + b, k) == if a[0].0 == k then Some(a[0].1) else Get(a[1..] + b, k);
      assert Get(a, k) == if a[0].0 == k then Some(a[0].1) else Get(a[1..], k);
      GetAppend(a[1..], b, k);
    } else {
      assert a + b == b;
    }
  }

  /** Picking from distinct names: no name repeats, exactly the names the
      test case has are picked, each with its check, and no more results than
      criteria. */
  lemma PicksSpec(names: seq<string>, tc: TestCase, response: string, toolsCalled: seq<string>)
    requires NoDup(names)
    ensures NoDup(Names(Picks(names, tc, response, toolsCalled)))
    ensures forall k :: k in Names(Picks(names, tc, response, toolsCalled)) <==>
                        k in tc.successCriteria && k in names
    ensures forall k :: k in tc.successCriteria && k in names ==>
                        Get(Picks(names, tc, response, toolsCalled), k) == Some(Check(k, tc, response, toolsCalled))
  {
    PicksNames(names, tc, response, toolsCalled);
    forall k | k in tc.successCriteria && k in names
      ensures Get(Picks(names, tc, response, toolsCalled), k) == Some(Check(k, tc, response, toolsCalled))
    {
      PicksValue(names, tc, response, toolsCalled, k);
    }
  }

  lemma {:induction false} PicksNames(names: seq<string>, tc: TestCase, response: string, toolsCalled: seq<string>)
    requires NoDup(names)
    ensures NoDup(Names(Picks(names, tc, response, toolsCalled)))
    ensures forall k :: k in Names(Picks(names, tc, response, toolsCalled)) <==>
                        k in tc.successCriteria && k in names
    decreases |names|
  {
    if |names| > 0 {
      var tail := names[1..];
      var head := Only(tc.successCriteria, names[0], Check(names[0], tc, response, toolsCalled));
      var rest := Picks(tail, tc, response, toolsCalled);
      NoDupTail(names);
      PicksNames(tail, tc, response, toolsCalled);
      assert Names(Picks(names, tc, response, toolsCalled)) == Names(head) + Names(rest) by {
        assert Picks(names, tc, response, toolsCalled) == head + rest;
      }
      assert names == [names[0]] + tail;
      if names[0] in tc.successCriteria {
        assert Names(head) == [names[0]];
        NoDupCons(names[0], Names(rest));
      } else {
        assert Names(head) + Names(rest) == Names(rest);
      }
    }
  }

  lemma {:induction false} PicksValue(names: seq<string>, tc: TestCase, response: string, toolsCalled: seq<string>, k: string)
    requires k in tc.successCriteria && k in names
    ensures Get(Picks(names, tc, response, toolsCalled), k) == Some(Check(k, tc, response, toolsCalled))
    decreases |names|
  {
    var tail := names[1..];
    var head := Only(tc.successCriteria, names[0], Check(names[0], tc, response, toolsCalled));
    var rest := Picks(tail, tc, response, toolsCalled);
    assert Picks(names, tc, response, toolsCalled) == head + rest;
    GetAppend(head, rest, k);
    if names[0] != k {
      assert names == [names[0]] + tail;
      assert Names(head) == [] || Names(head) == [names[0]];
      PicksValue(tail, tc, response, toolsCalled, k);
    } else {
      assert Names(head) == [k];
    }
  }

  /** The computed results hold, in the fixed order, one entry for each of
      the six computed criteria the test case names, with that criterion's
      check; a criterion outside the six gets no entry. */
  lemma ComputedSpec(tc: TestCase, response: string, toolsCalled: seq<string>)
    ensures NoDup(Names(Computed(tc, response, toolsCalled)))
    ensures forall k :: k in Names(Computed(tc, response, toolsCalled)) <==>
                        k in tc.successCriteria && k in COMPUTED_CRITERIA
    ensures forall k :: k in tc.successCriteria && k in COMPUTED_CRITERIA ==>
                        Get(Computed(tc, response, toolsCalled), k) == Some(Check(k, tc, response, toolsCalled))
  {
    assert NoDup(COMPUTED_CRITERIA);
    PicksSpec(COMPUTED_CRITERIA, tc, response, toolsCalled);
  }

  /** There are never more computed results than criteria. */
  lemma ComputedCount(tc: TestCase, response: string, toolsCalled: seq<string>)
    requires NoDup(tc.successCriteria)
    ensures |Computed(tc, response, toolsCalled)| <= |tc.successCriteria|
  {
    ComputedSpec(tc, response, toolsCalled);
    var ns := Names(Computed(tc, response, toolsCalled));
    DistinctCard(ns);
    DistinctCard(tc.successCriteria);
    SubsetCard((set x | x in ns), (set x | x in tc.successCriteria));
  }

  /** A sequence without repetition has as many distinct elements as entries. */
  lemma {:induction false} DistinctCard(s: seq<string>)
    requires NoDup(s)
    ensures |set x | x in s| == |s|
    decreases |s|
  {
    if |s| > 0 {
      var init := s[..|s| - 1];
      var last := s[|s| - 1];
      assert NoDup(init) by {
        forall i, j | 0 <= i < j < |init| ensures init[i] != init[j] {
          assert init[i] == s[i] && init[j] == s[j];
        }
      }
      DistinctCard(init);
      assert (set x | x in s) == (set x | x in init) + {last} by {
        assert s == init + [last];
      }
      assert last !in (set x | x in init) by {
        forall i | 0 <= i < |init| ensures init[i] != last {
          assert init[i] == s[i];
        }
      }
    }
  }

  lemma SubsetCard(a: set<string>, b: set<string>)
    requires a <= b
    ensures |a| <= |b|
  {
    assert b == a + (b - a);
    assert a !! (b - a);
  }

  /** Setting a name not yet present appends it. */
  lemma {:induction false} PutFresh(rs: Checks, k: string, v: bool)
    requires k !in Names(rs)
    ensures Put(rs, k, v) == rs + [(k, v)]
    decreases |rs|
  {
    if |rs| > 0 {
      assert rs[0].0 == Names(rs)[0];
      assert k !in Names(rs[1..]) by {
        forall j | 0 <= j < |rs| - 1 ensures Names(rs[1..])[j] != k {
          assert Names(rs[1..])[j] == Names(rs)[j + 1];
        }
      }
      PutFresh(rs[1..], k, v);
      assert Put(rs, k, v) == [rs[0]] + (rs[1..] + [(k, v)]);
      assert rs == [rs[0]] + rs[1..];
      Assoc([rs[0]], rs[1..], [(k, v)]);
    }
  }

  lemma ShiftHead<T>(a: seq<T>, b: seq<T>)
    requires |b| > 0
    ensures (a + [b[0]]) + b[1..] == a + b
  {
    assert b == [b[0]] + b[1..];
  }

  /** Merging checks whose names are all new appends them. */
  lemma {:induction false} UpdateFresh(rs: Checks, extra: Checks)
    requires NoDup(Names(extra))
    requires forall x :: x in Names(extra) ==> x !in Names(rs)
    ensures Update(rs, extra) == rs + extra
    decreases |extra|
  {
    if |extra| > 0 {
      var tail := extra[1..];
      NamesTail(extra);
      PutFresh(rs, extra[0].0, extra[0].1);
      var rs' := rs + [extra[0]];
      assert Update(rs, extra) == Update(rs', tail);
      assert Names(rs') == Names(rs) + [extra[0].0];
      assert forall x :: x in Names(tail) ==> x in Names(extra);
      UpdateFresh(rs', tail);
      ShiftHead(rs, extra);
    }
  }

  lemma {:induction false} TrueCountAppend(a: Checks, b: Checks)
    ensures TrueCount(a + b) == TrueCount(a) + TrueCount(b)
    decreases |b|
  {
    if |b| > 0 {
      assert (a + b)[..|a + b| - 1] == a + b[..|b| - 1];
      assert (a + b)[|a + b| - 1] == b[|b| - 1];
      TrueCountAppend(a, b[..|b| - 1]);
    } else {
      assert a + b == a;
    }
  }

  lemma {:induction false} TrueCountAll(rs: Checks)
    requires forall i :: 0 <= i < |rs| ==> rs[i].1
    ensures TrueCount(rs) == |rs|
    decreases |rs|
  {
    if |rs| > 0 {
      TrueCountAll(rs[..|rs| - 1]);
    }
  }

  lemma RatioThreshold(t: real, n: real)
    requires n > 0.0
    ensures t / n >= 0.8 <==> 5.0 * t >= 4.0 * n
  {
    var q := t / n;
    assert q * n == t;
    if q >= 0.8 {
      assert (q - 0.8) * n >= 0.0;
    } else {
      assert (0.8 - q) * n > 0.0;
    }
  }

  lemma RatioUnit(t: real, n: real)
    requires n > 0.0 && 0.0 <= t <= n
    ensures 0.0 <= t / n <= 1.0
  {
    var q := t / n;
    assert q * n == t;
  }

  lemma RatioAboveOne(t: real, n: real)
    requires n > 0.0 && t > n
    ensures t / n > 1.0
  {
    var q := t / n;
    assert q * n == t;
  }

  /** `overall_score`: the share of the test case's criteria that came out true. */
  function Score(rs: Checks, criteria: seq<string>): (r: real)
    ensures 0.0 <= r
    ensures |criteria| == 0 ==> r == 0.0
    ensures |criteria| > 0 ==> r * (|criteria| as real) == TrueCount(rs) as real
  {
    if |criteria| > 0 then TrueCount(rs) as real / |criteria| as real else 0.0
  }

  /** The 80% threshold: a response passes exactly when at least four fifths
      of the criteria came out true; a test case without criteria never passes. */
  lemma PassThreshold(rs: Checks, criteria: seq<string>)
    ensures Score(rs, criteria) >= 0.8 <==> |criteria| > 0 && 5 * TrueCount(rs) >= 4 * |criteria|
  {
    if |criteria| > 0 {
      RatioThreshold(TrueCount(rs) as real, |criteria| as real);
    }
  }

  /** Without additional checks the score lies between 0 and 1: only the
      criteria the evaluator computes can count. */
  lemma ScoreUnaided(tc: TestCase, response: string, toolsCalled: seq<string>)
    requires NoDup(tc.successCriteria)
    ensures 0.0 <= Score(Computed(tc, response, toolsCalled), tc.successCriteria) <= 1.0
  {
    ComputedCount(tc, response, toolsCalled);
    var rs := Computed(tc, response, toolsCalled);
    if |tc.successCriteria| > 0 {
      RatioUnit(TrueCount(rs) as real, |tc.successCriteria| as real);
    }
  }

  /** Additional checks count in the numerator while the denominator stays
      the number of criteria: more new passing checks than criteria push the
      score above 1. */
  lemma AdditionalChecksExceedOne(rs: Checks, extra: Checks, criteria: seq<string>)
    requires NoDup(Names(extra)) && |criteria| > 0 && |extra| > |criteria|
    requires forall i :: 0 <= i < |extra| ==> extra[i].1 && extra[i].0 !in Names(rs)
    ensures Score(Update(rs, extra), criteria) > 1.0
  {
    forall x | x in Names(extra) ensures x !in Names(rs) {
      var j :| 0 <= j < |Names(extra)| && Names(extra)[j] == x;
      assert extra[j].0 == x;
    }
    UpdateFresh(rs, extra);
    TrueCountAppend(rs, extra);
    TrueCountAll(extra);
    RatioAboveOne(TrueCount(rs + extra) as real, |criteria| as real);
  }

  /** A criterion the evaluator does not compute gets no result, so there
      are fewer results than criteria. */
  lemma UncomputedCriterion(tc: TestCase, response: string, toolsCalled: seq<string>, x: string)
    requires NoDup(tc.successCriteria) && x in tc.successCriteria && x !in COMPUTED_CRITERIA
    ensures Get(Computed(tc, response, toolsCalled), x) == None
    ensures |Computed(tc, response, toolsCalled)| < |tc.successCriteria|
  {
    ComputedSpec(tc, response, toolsCalled);
    FewerNames(Names(Computed(tc, response, toolsCalled)), tc.successCriteria, x);
  }

  /** Distinct names drawn from distinct criteria, one criterion left out,
      are fewer than the criteria. */
  lemma FewerNames(ns: seq<string>, criteria: seq<string>, x: string)
    requires NoDup(ns) && NoDup(criteria) && x in criteria && x !in ns
    requires forall k :: k in ns ==> k in criteria
    ensures |ns| < |criteria|
  {
    DistinctCard(ns);
    DistinctCard(criteria);
    var names := set y | y in ns;
    var all := set y | y in criteria;
    assert names <= all - {x};
    SubsetCard(names, all - {x});
    RemoveMemberCard(all, x);
  }

  lemma RemoveMemberCard(a: set<string>, x: string)
    requires x in a
    ensures |a - {x}| == |a| - 1
  {
    assert a == (a - {x}) + {x};
  }

  /** A test case with at most four criteria, one of which the evaluator
      does not compute, cannot pass on the evaluator's own checks, whatever
      the response and the tools called. */
  lemma UncomputedCriterionFails(tc: TestCase, response: string, toolsCalled: seq<string>, x: string)
    requires NoDup(tc.successCriteria) && |tc.successCriteria| <= 4
    requires x in tc.successCriteria && x !in COMPUTED_CRITERIA
    ensures Score(Computed(tc, response, toolsCalled), tc.successCriteria) < 0.8
  {
    UncomputedCriterion(tc, response, toolsCalled, x);
    PassThreshold(Computed(tc, response, toolsCalled), tc.successCriteria);
  }

  /** Every test case of the table names at most four criteria, one of them
      outside the six the evaluator computes. */
  lemma TableUncomputed(i: nat)
    requires i < |TEST_CASES|
    ensures |TEST_CASES[i].successCriteria| <= 4
    ensures exists j :: 0 <= j < |TEST_CASES[i].successCriteria| && TEST_CASES[i].successCriteria[j] !in COMPUTED_CRITERIA
  {
    var picks: seq<nat> := [3, 3, 3, 2, 2, 0, 1, 1, 0, 0];
    assert picks[i] < |TEST_CASES[i].successCriteria|;
    assert TEST_CASES[i].successCriteria[picks[i]] !in COMPUTED_CRITERIA;
  }

  /** So no test case of the table can pass without additional checks. */
  lemma NoTestCasePassesUnaided(i: nat, response: string, toolsCalled: seq<string>)
    requires i < |TEST_CASES|
    ensures Score(Computed(TEST_CASES[i], response, toolsCalled), TEST_CASES[i].successCriteria) < 0.8
  {
    var tc := TEST_CASES[i];
    TableShape();
    TableUncomputed(i);
    var j :| 0 <= j < |tc.successCriteria| && tc.successCriteria[j] !in COMPUTED_CRITERIA;
    UncomputedCriterionFails(tc, response, toolsCalled, tc.successCriteria[j]);
  }

  // ----------------------------------------------------------------- notes

  /** The "Failed: <criterion>" notes, in result order. */
  function FailedNotes(rs: Checks): (notes: seq<string>)
    ensures forall j :: 0 <= j < |notes| ==> "Failed: " <= notes[j]
    decreases |rs|
  {
    if |rs| == 0 then []
    else FailedNotes(rs[..|rs| - 1]) + (if rs[|rs| - 1].1 then [] else ["Failed: " + rs[|rs| - 1].0])
  }

  /** The notes text: the failures joined by "; ", or "All criteria passed". */
  function NotesText(rs: Checks): string {
    var notes := FailedNotes(rs);
    if |notes| > 0 then Join(notes, "; ") else "All criteria passed"
  }

  lemma JoinHead(parts: seq<string>, sep: string)
    requires |parts| > 0 && |parts[0]| > 0
    ensures |Join(parts, sep)| > 0 && Join(parts, sep)[0] == parts[0][0]
  {
  }

  /** One note per failed criterion, and the "All criteria passed" text
      exactly when every result is true. */
  lemma {:induction false} NotesSpec(rs: Checks)
    ensures |FailedNotes(rs)| == |rs| - TrueCount(rs)
    ensures NotesText(rs) == "All criteria passed" <==> TrueCount(rs) == |rs|
    decreases |rs|
  {
    if |rs| > 0 {
      NotesSpec(rs[..|rs| - 1]);
    }
    var notes := FailedNotes(rs);
    if |notes| > 0 {
      assert "Failed: " <= notes[0];
      JoinHead(notes, "; ");
      assert NotesText(rs)[0] == 'F';
    }
  }

  // ------------------------------------------------------------ evaluation

  /** `EvaluationResult`; the timestamp is the minute the result was made. */
  datatype EvaluationResult = EvaluationResult(
    testId: string,
    category: string,
    inputText: string,
    response: string,
    toolsCalled: seq<string>,
    executionTime: real,
    successCriteria: Checks,
    overallScore: real,
    passed: bool,
    notes: string,
    timestamp: int)

  /** One `if name in criteria: results[name] = value` step of
      `evaluate_response`, for a name `results` does not hold yet. */
  method SetIfNamed(results: Checks, criteria: seq<string>, name: string, value: bool) returns (r: Checks)
    ensures r == results + Only(criteria, name, value)
  {
    r := results;
    if name in criteria {
      r := r + [(name, value)];
    }
  }

  /** The criterion checks of `evaluate_response`, in its order: each one the
      test case names is set in `results`. */
  method CheckCriteria(tc: TestCase, response: string, toolsCalled: seq<string>) returns (results: Checks)
    ensures results == Computed(tc, response, toolsCalled)
  {
    var criteria := tc.successCriteria;
    var r0 := SetIfNamed([], criteria, "uses_correct_tool", CheckToolsUsed(tc.expectedTools, toolsCalled));
    var r1 := SetIfNamed(r0, criteria, "responds_in_thai", CheckThaiLanguage(response));
    var r2 := SetIfNamed(r1, criteria, "provides_actionable_steps", CheckActionableSteps(response));
    var r3 := SetIfNamed(r2, criteria, "includes_ticket_id", CheckTicketId(response));
    var r4 := SetIfNamed(r3, criteria, "does_not_call_unnecessary_tools", |toolsCalled| == 0);
    results := SetIfNamed(r4, criteria, "asks_clarifying_questions", AsksClarifyingQuestions(response));
    assert [] + Only(criteria, "uses_correct_tool", CheckToolsUsed(tc.expectedTools, toolsCalled))
        == Only(criteria, "uses_correct_tool", CheckToolsUsed(tc.expectedTools, toolsCalled));
    ComputedUnfold(tc, response, toolsCalled);
  }

  /** The notes of `evaluate_response`: one "Failed: <criterion>" per false
      result, joined by "; ", or "All criteria passed". */
  method WriteNotes(results: Checks) returns (text: string)
    ensures text == NotesText(results)
  {
    var notes: seq<string> := [];
    var i := 0;
    while i < |results|
      invariant 0 <= i <= |results|
      invariant notes == FailedNotes(results[..i])
    {
      assert results[..i + 1][..i] == results[..i];
      if !results[i].1 {
        notes := notes + ["Failed: " + results[i].0];
      }
      i := i + 1;
    }
    assert results[..i] == results;
    text := if |notes| > 0 then Join(notes, "; ") else "All criteria passed";
  }

  /** `evaluate_response`: runs the computed checks the test case names,
      merges the additional checks over them, scores the outcome against the
      number of criteria and writes the notes. */
  method EvaluateResponse(tc: TestCase, response: string, toolsCalled: seq<string>, executionTime: real,
                          additional: Checks, now: int) returns (er: EvaluationResult)
    requires NoDup(Names(additional))
    ensures er.testId == tc.id && er.category == tc.category && er.inputText == tc.input
    ensures er.response == response && er.toolsCalled == toolsCalled
    ensures er.executionTime == executionTime && er.timestamp == now
    ensures er.successCriteria == Update(Computed(tc, response, toolsCalled), additional)
    ensures er.overallScore == Score(er.successCriteria, tc.successCriteria)
    ensures er.passed <==> |tc.successCriteria| > 0 && 5 * TrueCount(er.successCriteria) >= 4 * |tc.successCriteria|
    ensures er.notes == NotesText(er.successCriteria)
    ensures er.notes == "All criteria passed" <==> TrueCount(er.successCriteria) == |er.successCriteria|
  {
    var criteria := tc.successCriteria;
    var results := CheckCriteria(tc, response, toolsCalled);
    if |additional| > 0 {
      results := Update(results, additional);
    }

    var totalCriteria := |criteria|;
    var passedCriteria := TrueCount(results);
    var overallScore := if totalCriteria > 0 then passedCriteria as real / totalCriteria as real else 0.0;
    PassThreshold(results, criteria);
    var passed := overallScore >= 0.8;

    var notes := WriteNotes(results);
    NotesSpec(results);
    er := EvaluationResult(tc.id, tc.category, tc.input, response, toolsCalled, executionTime, results,
                           overallScore, passed, notes, now);
  }

  // ------------------------------------------------------------- aggregate

  /** Results and passes of one category. */
  datatype CategoryCount = CategoryCount(total: nat, passed: nat)

  /** `category_stats` before the pass rates are added, in first-seen order. */
  type Breakdown = seq<(string, CategoryCount)>

  function Categories(b: Breakdown): seq<string> {
    MapSeq(b, (e: (string, CategoryCount)) => e.0)
  }

  /** The counts of a category, zero when it has not been seen. */
  function CountOf(b: Breakdown, cat: string): CategoryCount
    decreases |b|
  {
    if |b| == 0 then CategoryCount(0, 0) else if b[0].0 == cat then b[0].1 else CountOf(b[1..], cat)
  }

  function TotalSum(b: Breakdown): nat
    decreases |b|
  {
    if |b| == 0 then 0 else b[0].1.total + TotalSum(b[1..])
  }

  function PassedSum(b: Breakdown): nat
    decreases |b|
  {
    if |b| == 0 then 0 else b[0].1.passed + PassedSum(b[1..])
  }

  lemma CategoriesCons(e: (string, CategoryCount), rest: Breakdown)
    ensures Categories([e] + rest) == [e.0] + Categories(rest)
  {
  }

  /** One result counted under its category: a new category is appended
      with zero counts first. */
  function Tally(b: Breakdown, cat: string, passed: bool): (r: Breakdown)
    ensures cat in Categories(b) ==> Categories(r) == Categories(b)
    ensures cat !in Categories(b) ==> Categories(r) == Categories(b) + [cat]
    decreases |b|
  {
    var p := if passed then 1 else 0;
    if |b| == 0 then [(cat, CategoryCount(1, p))]
    else if b[0].0 == cat then
      CategoriesCons(b[0], b[1..]);
      CategoriesCons((cat, CategoryCount(b[0].1.total + 1, b[0].1.passed + p)), b[1..]);
      assert b == [b[0]] + b[1..];
      [(cat, CategoryCount(b[0].1.total + 1, b[0].1.passed + p))] + b[1..]
    else
      var rest := Tally(b[1..], cat, passed);
      CategoriesCons(b[0], b[1..]);
      CategoriesCons(b[0], rest);
      assert b == [b[0]] + b[1..];
      [b[0]] + rest
  }

  /** Counting a result adds one to its category's total, one to its passes
      when it passed, leaves every other category alone and adds the same
      to the sums. */
  lemma {:induction false} TallySpec(b: Breakdown, cat: string, passed: bool)
    ensures CountOf(Tally(b, cat, passed), cat).total == CountOf(b, cat).total + 1
    ensures CountOf(Tally(b, cat, passed), cat).passed == CountOf(b, cat).passed + (if passed then 1 else 0)
    ensures forall x :: x != cat ==> CountOf(Tally(b, cat, passed), x) == CountOf(b, x)
    ensures TotalSum(Tally(b, cat, passed)) == TotalSum(b) + 1
    ensures PassedSum(Tally(b, cat, passed)) == PassedSum(b) + (if passed then 1 else 0)
    decreases |b|
  {
    if |b| > 0 && b[0].0 != cat {
      TallySpec(b[1..], cat, passed);
      var r := Tally(b, cat, passed);
      var rest := Tally(b[1..], cat, passed);
      assert r == [b[0]] + rest;
      assert r[0] == b[0] && r[1..] == rest;
    } else if |b| > 0 {
      var r := Tally(b, cat, passed);
      assert r[1..] == b[1..];
    }
  }

  /** The breakdown of a run, counted in result order. */
  function BreakdownOf(rs: seq<EvaluationResult>): Breakdown
    decreases |rs|
  {
    if |rs| == 0 then [] else Tally(BreakdownOf(rs[..|rs| - 1]), rs[|rs| - 1].category, rs[|rs| - 1].passed)
  }

  /** `sum(1 for r in results if r.passed)`. */
  function PassedCount(rs: seq<EvaluationResult>): (n: nat)
    ensures n <= |rs|
    decreases |rs|
  {
    if |rs| == 0 then 0 else PassedCount(rs[..|rs| - 1]) + (if rs[|rs| - 1].passed then 1 else 0)
  }

  /** The number of results of a category. */
  function CategoryTotal(rs: seq<EvaluationResult>, cat: string): nat
    decreases |rs|
  {
    if |rs| == 0 then 0 else CategoryTotal(rs[..|rs| - 1], cat) + (if rs[|rs| - 1].category == cat then 1 else 0)
  }

  /** Each category is listed once, exactly the categories of the run are
      listed, each with its number of results and never more passes than
      results, and the per-category counts add up to the run's counts. */
  lemma BreakdownSpec(rs: seq<EvaluationResult>)
    ensures NoDup(Categories(BreakdownOf(rs)))
    ensures forall x :: x in Categories(BreakdownOf(rs)) <==> exists i :: 0 <= i < |rs| && rs[i].category == x
    ensures forall x :: CountOf(BreakdownOf(rs), x).total == CategoryTotal(rs, x)
    ensures forall x :: CountOf(BreakdownOf(rs), x).passed <= CountOf(BreakdownOf(rs), x).total
    ensures TotalSum(BreakdownOf(rs)) == |rs|
    ensures PassedSum(BreakdownOf(rs)) == PassedCount(rs)
  {
    BreakdownCategories(rs);
    BreakdownCounts(rs);
  }

  lemma {:induction false} BreakdownCounts(rs: seq<EvaluationResult>)
    ensures forall x :: CountOf(BreakdownOf(rs), x).total == CategoryTotal(rs, x)
    ensures forall x :: CountOf(BreakdownOf(rs), x).passed <= CountOf(BreakdownOf(rs), x).total
    ensures TotalSum(BreakdownOf(rs)) == |rs|
    ensures PassedSum(BreakdownOf(rs)) == PassedCount(rs)
    decreases |rs|
  {
    if |rs| > 0 {
      var init := rs[..|rs| - 1];
      var last := rs[|rs| - 1];
      BreakdownCounts(init);
      TallySpec(BreakdownOf(init), last.category, last.passed);
    }
  }

  lemma {:induction false} BreakdownCategories(rs: seq<EvaluationResult>)
    ensures NoDup(Categories(BreakdownOf(rs)))
    ensures forall x :: x in Categories(BreakdownOf(rs)) <==> exists i :: 0 <= i < |rs| && rs[i].category == x
    decreases |rs|
  {
    if |rs| > 0 {
      var init := rs[..|rs| - 1];
      var last := rs[|rs| - 1];
      BreakdownCategories(init);
      var before := Categories(BreakdownOf(init));
      if last.category !in before {
        NoDupSnoc(before, last.category);
      }
      forall x ensures x in Categories(BreakdownOf(rs)) <==> exists i :: 0 <= i < |rs| && rs[i].category == x {
        CategorySeen(rs, init, x);
      }
    }
  }

  /** A category of a run's results was seen before the last result or is
      that of the last result. */
  lemma CategorySeen(rs: seq<EvaluationResult>, init: seq<EvaluationResult>, x: string)
    requires |rs| > 0 && init == rs[..|rs| - 1]
    ensures (exists i :: 0 <= i < |rs| && rs[i].category == x)
        <==> (exists i :: 0 <= i < |init| && init[i].category == x) || rs[|rs| - 1].category == x
  {
    if exists i :: 0 <= i < |init| && init[i].category == x {
      var i :| 0 <= i < |init| && init[i].category == x;
      assert rs[i] == init[i];
    }
    if exists i :: 0 <= i < |rs| && rs[i].category == x {
      var i :| 0 <= i < |rs| && rs[i].category == x;
      if i < |init| {
        assert init[i] == rs[i];
      }
    }
  }

  /** A category's entry of `category_breakdown`. */
  datatype CategoryStats = CategoryStats(total: nat, passed: nat, passRate: real)

  /** An entry with its pass rate added. */
  function WithRate(e: (string, CategoryCount)): (string, CategoryStats) {
    (e.0, CategoryStats(e.1.total, e.1.passed,
                        if e.1.total > 0 then e.1.passed as real / e.1.total as real else 0.0))
  }

  function SumScores(rs: seq<EvaluationResult>): real
    decreases |rs|
  {
    if |rs| == 0 then 0.0 else SumScores(rs[..|rs| - 1]) + rs[|rs| - 1].overallScore
  }

  function SumTimes(rs: seq<EvaluationResult>): real
    decreases |rs|
  {
    if |rs| == 0 then 0.0 else SumTimes(rs[..|rs| - 1]) + rs[|rs| - 1].executionTime
  }

  /** The dictionary `calculate_aggregate_metrics` returns for a non-empty run. */
  datatype Aggregate = Aggregate(totalTests: nat, passed: nat, failed: int, passRate: real, averageScore: real,
                                 averageExecutionTime: real, categoryBreakdown: seq<(string, CategoryStats)>)

  /** The first loop of `calculate_aggregate_metrics`: each result counted
      under its category. */
  method CountCategories(results: seq<EvaluationResult>) returns (counts: Breakdown)
    ensures counts == BreakdownOf(results)
  {
    counts := [];
    var i := 0;
    while i < |results|
      invariant 0 <= i <= |results|
      invariant counts == BreakdownOf(results[..i])
    {
      BreakdownSnoc(results, i);
      counts := Tally(counts, results[i].category, results[i].passed);
      i := i + 1;
    }
    assert results[..i] == results;
  }

  lemma BreakdownSnoc(rs: seq<EvaluationResult>, i: nat)
    requires i < |rs|
    ensures BreakdownOf(rs[..i + 1]) == Tally(BreakdownOf(rs[..i]), rs[i].category, rs[i].passed)
  {
    assert rs[..i + 1][..i] == rs[..i];
  }

  /** The second loop of `calculate_aggregate_metrics`: the pass rate added
      to every category, in order. */
  method AddRates(counts: Breakdown) returns (stats: seq<(string, CategoryStats)>)
    ensures |stats| == |counts| && forall k :: 0 <= k < |counts| ==> stats[k] == WithRate(counts[k])
  {
    stats := [];
    var j := 0;
    while j < |counts|
      invariant 0 <= j <= |counts|
      invariant |stats| == j && forall k :: 0 <= k < j ==> stats[k] == WithRate(counts[k])
    {
      stats := stats + [WithRate(counts[j])];
      j := j + 1;
    }
  }

  /** `calculate_aggregate_metrics`: None for an empty run (the empty
      dictionary); otherwise the counts, rates and averages, and the
      per-category breakdown in first-seen order with its pass rates. */
  method CalculateAggregateMetrics(results: seq<EvaluationResult>) returns (r: Option<Aggregate>)
    ensures r.None? <==> |results| == 0
    ensures r.Some? ==> r.value.totalTests == |results| && r.value.passed == PassedCount(results)
    ensures r.Some? ==> r.value.failed == |results| - PassedCount(results)
    ensures r.Some? ==> r.value.passRate == PassedCount(results) as real / |results| as real
    ensures r.Some? ==> r.value.averageScore == SumScores(results) / |results| as real
    ensures r.Some? ==> r.value.averageExecutionTime == SumTimes(results) / |results| as real
    ensures r.Some? ==> |r.value.categoryBreakdown| == |BreakdownOf(results)|
    ensures r.Some? ==> forall i :: 0 <= i < |BreakdownOf(results)| ==>
                          r.value.categoryBreakdown[i] == WithRate(BreakdownOf(results)[i])
  {
    if |results| == 0 {
      return None;
    }
    var total := |results|;
    var passed := PassedCount(results);
    var avgScore := SumScores(results) / total as real;
    var avgTime := SumTimes(results) / total as real;

    var counts := CountCategories(results);
    var stats := AddRates(counts);
    r := Some(Aggregate(total, passed, total - passed, passed as real / total as real, avgScore, avgTime, stats));
  }

  /** Over a non-empty run no count is negative, the pass rate and every
      category's pass rate lie between 0 and 1, and a category's rate is
      its passes over its results. */
  lemma AggregateBounds(rs: seq<EvaluationResult>)
    requires |rs| > 0
    ensures |rs| - PassedCount(rs) >= 0
    ensures 0.0 <= PassedCount(rs) as real / |rs| as real <= 1.0
    ensures forall i :: 0 <= i < |BreakdownOf(rs)| ==>
              BreakdownOf(rs)[i].1.total >= 1 && 0.0 <= WithRate(BreakdownOf(rs)[i]).1.passRate <= 1.0
  {
    BreakdownSpec(rs);
    var b := BreakdownOf(rs);
    forall i | 0 <= i < |b|
      ensures b[i].1.total >= 1 && 0.0 <= WithRate(b[i]).1.passRate <= 1.0
    {
      EntryBounds(rs, i);
      RatioUnit(b[i].1.passed as real, b[i].1.total as real);
    }
    RatioUnit(PassedCount(rs) as real, |rs| as real);
  }

  /** Each entry of a run's breakdown counts at least one result and no
      more passes than results. */
  lemma EntryBounds(rs: seq<EvaluationResult>, i: nat)
    requires i < |BreakdownOf(rs)|
    ensures BreakdownOf(rs)[i].1.total >= 1
    ensures BreakdownOf(rs)[i].1.passed <= BreakdownOf(rs)[i].1.total
  {
    BreakdownSpec(rs);
    var b := BreakdownOf(rs);
    CountOfEntry(b, i);
    var x := b[i].0;
    assert Categories(b)[i] == x;
    assert x in Categories(b);
    assert exists k :: 0 <= k < |rs| && rs[k].category == x;
    var k :| 0 <= k < |rs| && rs[k].category == x;
    CategoryTotalPositive(rs, k);
  }

  /** In a breakdown without repeated categories, an entry holds the counts of its category. */
  lemma {:induction false} CountOfEntry(b: Breakdown, i: nat)
    requires NoDup(Categories(b)) && i < |b|
    ensures CountOf(b, b[i].0) == b[i].1
    decreases i
  {
    if i > 0 {
      assert Categories(b)[0] != Categories(b)[i];
      var tail := b[1..];
      assert NoDup(Categories(tail)) by {
        forall a, c | 0 <= a < c < |tail| ensures Categories(tail)[a] != Categories(tail)[c] {
          assert Categories(b)[a + 1] != Categories(b)[c + 1];
        }
      }
      CountOfEntry(tail, i - 1);
      assert tail[i - 1] == b[i];
    }
  }

  lemma {:induction false} CategoryTotalPositive(rs: seq<EvaluationResult>, k: nat)
    requires k < |rs|
    ensures CategoryTotal(rs, rs[k].category) >= 1
    decreases |rs|
  {
    if k < |rs| - 1 {
      CategoryTotalPositive(rs[..|rs| - 1], k);
    }
  }
}
