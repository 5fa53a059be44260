/** The evaluation test cases of evaluation/test_cases.py: ten cases, each
    with an id, a category, a user input, the tools it expects and the names
    of its success criteria, and the two lookups over the table. */
module TestCases {
  import opened Common

  /** One test case. The criteria are the keys of the `success_criteria`
      dictionary, in order; its values are never read. */
  datatype TestCase = TestCase(id: string, category: string, input: string, expectedBehavior: seq<string>,
                               expectedTools: seq<string>, successCriteria: seq<string>)

  /** `TEST_CASES`, in table order. */
  const TEST_CASES: seq<TestCase> := [
    TestCase("password_reset_001", "policy_query", "ผมลืมรหัสผ่านครับ ต้องทำยังไงครับ",
      ["search_it_policy should be called", "response should be in Thai",
       "should mention IT portal URL", "should explain password requirements"],
      ["search_it_policy"],
      ["uses_correct_tool", "responds_in_thai", "provides_actionable_steps", "cites_documentation"]),
    TestCase("wifi_trouble_001", "troubleshooting", "เชื่อมต่อ WiFi ไม่ได้ค่ะ",
      ["search_troubleshooting_guide should be called", "response should be in Thai",
       "should provide step-by-step solution", "should offer to create ticket if not resolved"],
      ["search_troubleshooting_guide"],
      ["uses_correct_tool", "responds_in_thai", "provides_actionable_steps", "offers_ticket_creation"]),
    TestCase("create_ticket_001", "ticket_creation", "สร้างตั๋วให้หน่อยครับ คอมช้ามาก ทำงานไม่ได้เลย",
      ["create_ticket should be called", "ticket should have appropriate priority",
       "response should include ticket ID", "response should be in Thai"],
      ["create_ticket"],
      ["uses_correct_tool", "responds_in_thai", "includes_ticket_id", "appropriate_priority"]),
    TestCase("check_ticket_001", "ticket_query", "ตรวจสอบสถานะตั๋วหมายเลข 1001 ให้หน่อยค่ะ",
      ["get_ticket should be called with ID 1001", "response should include ticket details",
       "response should be in Thai"],
      ["get_ticket"],
      ["uses_correct_tool", "responds_in_thai", "extracts_ticket_id"]),
    TestCase("vague_query_001", "edge_case", "ช่วยหน่อยครับ",
      ["should ask clarifying questions", "should not call tools immediately", "response should be in Thai"],
      [],
      ["asks_clarifying_questions", "responds_in_thai", "does_not_hallucinate"]),
    TestCase("multiple_issues_001", "edge_case", "คอมช้า WiFi ก็เชื่อมต่อไม่ได้ แล้วก็ printer ไม่ทำงานด้วยค่ะ",
      ["should address issues systematically", "may search troubleshooting guide multiple times",
       "should prioritize or ask which to solve first", "response should be in Thai"],
      ["search_troubleshooting_guide"],
      ["addresses_multiple_issues", "responds_in_thai", "provides_organized_response"]),
    TestCase("urgent_issue_001", "edge_case", "เร่งด่วนมากครับ! ระบบล่มหมด ทำงานไม่ได้เลย ต้องการความช่วยเหลือด่วน",
      ["should create ticket with high/urgent priority", "should acknowledge urgency",
       "should provide emergency contact info", "response should be in Thai"],
      ["create_ticket"],
      ["uses_correct_tool", "sets_urgent_priority", "responds_in_thai", "provides_emergency_info"]),
    TestCase("invalid_ticket_001", "unhappy_path", "ตรวจสอบตั๋วหมายเลข 99999 ให้หน่อยค่ะ",
      ["get_ticket should be called", "should handle 'not found' gracefully",
       "should ask if user wants to provide correct ID", "response should be in Thai"],
      ["get_ticket"],
      ["uses_correct_tool", "handles_error_gracefully", "responds_in_thai"]),
    TestCase("context_aware_001", "context_awareness", "ขอบคุณครับ แล้วถ้าลืมรหัสผ่านอีกต้องทำยังไงครับ",
      ["should reference previous conversation", "may not need to search again if info already provided",
       "response should be in Thai"],
      [],
      ["uses_conversation_context", "responds_in_thai", "avoids_redundant_searches"]),
    TestCase("greeting_001", "performance", "สวัสดีครับ",
      ["should respond with greeting", "should not call any tools", "should ask how to help",
       "response should be in Thai"],
      [],
      ["responds_quickly", "responds_in_thai", "does_not_call_unnecessary_tools"])]

  function CaseIds(cases: seq<TestCase>): seq<string> {
    MapSeq(cases, (tc: TestCase) => tc.id)
  }

  /** The table holds ten cases with distinct ids; every case judged on its
      tool use names one expected tool, every case is judged on answering in
      Thai, and no case names a criterion twice. */
  lemma TableShape()
    ensures |TEST_CASES| == 10 && NoDup(CaseIds(TEST_CASES))
    ensures forall i :: 0 <= i < |TEST_CASES| && "uses_correct_tool" in TEST_CASES[i].successCriteria
                        ==> |TEST_CASES[i].expectedTools| == 1
    ensures forall i :: 0 <= i < |TEST_CASES| ==> "responds_in_thai" in TEST_CASES[i].successCriteria
    ensures forall i :: 0 <= i < |TEST_CASES| ==> NoDup(TEST_CASES[i].successCriteria)
  {
    DistinctIds();
    forall i | 0 <= i < |TEST_CASES|
      ensures "uses_correct_tool" in TEST_CASES[i].successCriteria ==> |TEST_CASES[i].expectedTools| == 1
      ensures "responds_in_thai" in TEST_CASES[i].successCriteria
      ensures NoDup(TEST_CASES[i].successCriteria)
    {
      CaseShape(i);
    }
  }

  /** The ids already differ in their first two characters. */
  lemma DistinctIds()
    ensures NoDup(CaseIds(TEST_CASES))
  {
    var ids := CaseIds(TEST_CASES);
    var heads := ["pa", "wi", "cr", "ch", "va", "mu", "ur", "in", "co", "gr"];
    forall k | 0 <= k < 10 ensures |ids[k]| >= 2 && ids[k][..2] == heads[k] {
      assert ids[k] == TEST_CASES[k].id;
    }
    forall i, j | 0 <= i < j < 10 ensures ids[i] != ids[j] {
      assert heads[i] != heads[j];
      assert ids[i][..2] == heads[i] && ids[j][..2] == heads[j];
    }
  }

  lemma CaseShape(i: nat)
    requires i < |TEST_CASES|
    ensures "uses_correct_tool" in TEST_CASES[i].successCriteria ==> |TEST_CASES[i].expectedTools| == 1
    ensures "responds_in_thai" in TEST_CASES[i].successCriteria
    ensures NoDup(TEST_CASES[i].successCriteria)
  {
  }

  /** `get_test_cases_by_category` over a given table. */
  function ByCategory(cases: seq<TestCase>, category: string): (r: seq<TestCase>)
    ensures forall tc :: tc in r <==> tc in cases && tc.category == category
    ensures |r| <= |cases|
  {
    Filter(cases, (tc: TestCase) => tc.category == category)
  }

  /** The listing keeps table order: a case added at the end of the table
      is listed last exactly when it has the category. */
  lemma ByCategorySnoc(cases: seq<TestCase>, tc: TestCase, category: string)
    ensures ByCategory(cases + [tc], category) == ByCategory(cases, category) + (if tc.category == category then [tc] else [])
  {
    FilterSnoc(cases, tc, (tc: TestCase) => tc.category == category);
  }

  /** `get_test_cases_by_category`. */
  function GetTestCasesByCategory(category: string): (r: seq<TestCase>)
    ensures forall tc :: tc in r <==> tc in TEST_CASES && tc.category == category
  {
    ByCategory(TEST_CASES, category)
  }

  /** Listing a table made of two parts lists the first part's cases
      before the second part's, each part in its own order. */
  lemma {:induction false} ByCategoryAppend(front: seq<TestCase>, back: seq<TestCase>, category: string)
    ensures ByCategory(front + back, category) == ByCategory(front, category) + ByCategory(back, category)
    decreases |back|
  {
    if |back| == 0 {
      assert front + back == front;
    } else {
      var init := back[..|back| - 1];
      var last := back[|back| - 1];
      assert back == init + [last];
      assert front + back == (front + init) + [last];
      ByCategoryAppend(front, init, category);
      ByCategorySnoc(front + init, last, category);
      ByCategorySnoc(init, last, category);
    }
  }

  /** The first case of a table with the id, or the message of the
      `ValueError` the lookup raises. */
  function FindCase(cases: seq<TestCase>, id: string): (r: Result<TestCase, string>)
    ensures r.Ok? <==> id in CaseIds(cases)
    ensures r.Ok? ==> exists i :: 0 <= i < |cases| && r.value == cases[i] && r.value.id == id
                                  && forall j :: 0 <= j < i ==> cases[j].id != id
    ensures r.Err? ==> r.error == "Test case " + id + " not found"
    decreases |cases|
  {
    if |cases| == 0 then Err("Test case " + id + " not found")
    else if cases[0].id == id then Ok(cases[0])
    else
      var rest := FindCase(cases[1..], id);
      assert CaseIds(cases) == [cases[0].id] + CaseIds(cases[1..]);
      if rest.Ok? then
        var i :| 0 <= i < |cases[1..]| && rest.value == cases[1..][i] && rest.value.id == id
                 && forall j :: 0 <= j < i ==> cases[1..][j].id != id;
        assert forall j :: 0 <= j < i + 1 ==> cases[j].id != id by {
          forall j | 0 <= j < i + 1 ensures cases[j].id != id {
            if j > 0 {
              assert cases[j] == cases[1..][j - 1];
            }
          }
        }
        rest
      else rest
  }

  /** `get_test_case_by_id`. */
  function GetTestCaseById(id: string): (r: Result<TestCase, string>)
    ensures r.Ok? <==> id in CaseIds(TEST_CASES)
    ensures r.Ok? ==> r.value in TEST_CASES && r.value.id == id
    ensures r.Err? ==> r.error == "Test case " + id + " not found"
  {
    FindCase(TEST_CASES, id)
  }

  /** With distinct ids the lookup finds the one case carrying the id. */
  lemma {:induction false} FindCaseUnique(cases: seq<TestCase>, i: nat)
    requires NoDup(CaseIds(cases)) && i < |cases|
    ensures FindCase(cases, cases[i].id) == Ok(cases[i])
    decreases i
  {
    if i > 0 {
      assert CaseIds(cases)[0] != CaseIds(cases)[i];
      var tail := cases[1..];
      assert NoDup(CaseIds(tail)) by {
        forall a, b | 0 <= a < b < |tail| ensures CaseIds(tail)[a] != CaseIds(tail)[b] {
          assert CaseIds(cases)[a + 1] != CaseIds(cases)[b + 1];
        }
      }
      FindCaseUnique(tail, i - 1);
      assert tail[i - 1] == cases[i];
    }
  }
}
