/**
 * From the advice text to a solution: the bullet captures of
 * `re.findall(r"<bullet> (.+)", text)`, the three step-extraction variants, the
 * solution dictionary handed to `solution_implementation`, the advice requests'
 * error and "No predefined solution" handling, and `jsonExtractor`.
 */
module Advice {
  import opened Wrappers
  import opened Text
  import opened Kube

  // ---------------------------------------------------------------------
  // re.findall(r"<bullet> (.+)", text)

  /** The end of the line holding index `i`: the next `'\n'` at or after `i`, or the end of `s`. */
  function LineEnd(s: string, i: nat): (e: nat)
    requires i <= |s|
    ensures i <= e <= |s| && (e == |s| || s[e] == '\n')
    ensures forall j :: i <= j < e ==> s[j] != '\n'
    decreases |s| - i
  {
    if i == |s| || s[i] == '\n' then i else LineEnd(s, i + 1)
  }

  /** A bullet followed by a space and at least one character of the same line starts at `k`. */
  predicate BulletAt(s: string, bullet: char, k: int) {
    0 <= k && k + 2 < |s| && s[k] == bullet && s[k + 1] == ' ' && s[k + 2] != '\n'
  }

  predicate HasBullet(s: string, bullet: char) {
    exists k | 0 <= k < |s| :: BulletAt(s, bullet, k)
  }

  /**
   * The captures of `re.findall(r"<bullet> (.+)", s)`: scanning from the left,
   * a match starts at a bullet followed by a space and at least one more
   * character of the line, and `.+` takes the rest of that line; the scan
   * resumes after the match.
   */
  function FindAll(s: string, bullet: char): (r: seq<string>)
    ensures forall i :: 0 <= i < |r| ==> r[i] != [] && '\n' !in r[i] && |r[i]| + 2 <= |s|
    decreases |s|
  {
    if |s| < 3 then []
    else if BulletAt(s, bullet, 0) then
      var e := LineEnd(s, 2);
      [s[2..e]] + FindAll(s[e..], bullet)
    else FindAll(s[1..], bullet)
  }

  /** `c` is the text `.+` captures after a bullet at `k`: the rest of that line. */
  predicate CapturedAt(s: string, bullet: char, k: int, c: string) {
    BulletAt(s, bullet, k) && c == s[k + 2..LineEnd(s, k + 2)]
  }

  /** A capture in a suffix of `s` is a capture in `s` at the shifted position. */
  lemma CapturedAtShift(s: string, bullet: char, d: nat, k: int, c: string)
    requires d <= |s| && CapturedAt(s[d..], bullet, k, c)
    ensures CapturedAt(s, bullet, k + d, c)
  {
    var t := s[d..];
    var e := LineEnd(t, k + 2);
    assert s[k + d] == t[k] && s[k + d + 1] == t[k + 1] && s[k + d + 2] == t[k + 2];
    forall j | k + d + 2 <= j < e + d
      ensures s[j] != '\n'
    {
      assert s[j] == t[j - d];
    }
    assert e == |t| || s[e + d] == t[e];
    LineEndIs(s, k + d + 2, e + d);
    assert s[k + d + 2..e + d] == t[k + 2..e];
  }

  /** Every capture is the rest of a line that starts with the bullet and a space. */
  lemma {:induction false} CapturesAreBulletLines(s: string, bullet: char)
    ensures forall c :: c in FindAll(s, bullet) ==> exists k | 0 <= k < |s| :: CapturedAt(s, bullet, k, c)
    decreases |s|
  {
    if |s| >= 3 {
      if BulletAt(s, bullet, 0) {
        var e := LineEnd(s, 2);
        CapturesAreBulletLines(s[e..], bullet);
        forall c | c in FindAll(s, bullet)
          ensures exists k | 0 <= k < |s| :: CapturedAt(s, bullet, k, c)
        {
          if c == s[2..e] {
            assert CapturedAt(s, bullet, 0, c);
          } else {
            assert c in FindAll(s[e..], bullet);
            var k :| 0 <= k < |s[e..]| && CapturedAt(s[e..], bullet, k, c);
            CapturedAtShift(s, bullet, e, k, c);
          }
        }
      } else {
        CapturesAreBulletLines(s[1..], bullet);
        forall c | c in FindAll(s, bullet)
          ensures exists k | 0 <= k < |s| :: CapturedAt(s, bullet, k, c)
        {
          assert c in FindAll(s[1..], bullet);
          var k :| 0 <= k < |s[1..]| && CapturedAt(s[1..], bullet, k, c);
          CapturedAtShift(s, bullet, 1, k, c);
        }
      }
    }
  }

  /** The captures are empty exactly when no bullet with text occurs. */
  lemma {:induction false} FindAllEmpty(s: string, bullet: char)
    ensures FindAll(s, bullet) == [] <==> !HasBullet(s, bullet)
    decreases |s|
  {
    if |s| < 3 {
      assert forall k :: !BulletAt(s, bullet, k);
    } else if BulletAt(s, bullet, 0) {
    } else {
      FindAllEmpty(s[1..], bullet);
      var t := s[1..];
      if HasBullet(s, bullet) {
        var k :| 0 <= k < |s| && BulletAt(s, bullet, k);
        assert k > 0;
        assert t[k - 1] == s[k] && t[k] == s[k + 1] && t[k + 1] == s[k + 2];
        assert BulletAt(t, bullet, k - 1);
      }
      if HasBullet(t, bullet) {
        var k :| 0 <= k < |t| && BulletAt(t, bullet, k);
        assert t[k] == s[k + 1] && t[k + 1] == s[k + 2] && t[k + 2] == s[k + 3];
        assert BulletAt(s, bullet, k + 1);
      }
    }
  }

  /** The first capture is the rest of the line after the first bullet. */
  lemma {:induction false} FirstCapture(s: string, bullet: char, k: nat)
    requires BulletAt(s, bullet, k) && forall j :: 0 <= j < k ==> !BulletAt(s, bullet, j)
    ensures FindAll(s, bullet) != [] && FindAll(s, bullet)[0] == s[k + 2..LineEnd(s, k + 2)]
    decreases k
  {
    if k > 0 {
      assert !BulletAt(s, bullet, 0);
      assert BulletAt(s[1..], bullet, k - 1);
      forall j | 0 <= j < k - 1
        ensures !BulletAt(s[1..], bullet, j)
      {
        assert !BulletAt(s, bullet, j + 1);
      }
      FirstCapture(s[1..], bullet, k - 1);
      LineEndShift(s, k + 2);
    }
  }

  /** The line ends at the first newline at or after `i`. */
  lemma LineEndIs(s: string, i: nat, e: nat)
    requires i <= e <= |s| && (e == |s| || s[e] == '\n') && forall j :: i <= j < e ==> s[j] != '\n'
    ensures LineEnd(s, i) == e
  {
  }

  /** A bullet line: its text is one capture, and the scan resumes at the newline after it. */
  lemma CaptureLine(x: string, rest: string, bullet: char)
    requires x != [] && '\n' !in x && (rest == [] || rest[0] == '\n')
    ensures FindAll([bullet, ' '] + x + rest, bullet) == [x] + FindAll(rest, bullet)
  {
    var s := [bullet, ' '] + x + rest;
    assert s[2] == x[0];
    assert BulletAt(s, bullet, 0);
    forall j | 2 <= j < 2 + |x|
      ensures s[j] != '\n'
    {
      assert s[j] == x[j - 2];
    }
    LineEndIs(s, 2, 2 + |x|);
    assert s[2..2 + |x|] == x;
    assert s[2 + |x|..] == rest;
  }

  /** A newline starts no match. */
  lemma SkipNewline(r: string, bullet: char)
    requires bullet != '\n'
    ensures FindAll("\n" + r, bullet) == FindAll(r, bullet)
  {
    var s := "\n" + r;
    if |s| >= 3 {
      assert !BulletAt(s, bullet, 0);
      assert s[1..] == r;
    }
  }

  lemma {:induction false} LineEndShift(s: string, i: nat)
    requires 1 <= i <= |s|
    ensures LineEnd(s[1..], i - 1) + 1 == LineEnd(s, i)
    decreases |s| - i
  {
    if i < |s| {
      assert s[1..][i - 1] == s[i];
      if s[i] != '\n' {
        LineEndShift(s, i + 1);
      }
    }
  }

  // ---------------------------------------------------------------------
  // The three step-extraction variants

  /**
   * The steps of the analysis server: the `*` captures, else the `-` captures,
   * else the whole advice text as the one step.
   */
  function ServerSteps(advice: string): (r: seq<string>)
    ensures |r| >= 1
    ensures FindAll(advice, '*') != [] ==> r == FindAll(advice, '*')
    ensures FindAll(advice, '*') == [] && FindAll(advice, '-') != [] ==> r == FindAll(advice, '-')
    ensures r == [advice] <==> FindAll(advice, '*') == [] && FindAll(advice, '-') == []
  {
    var stars := FindAll(advice, '*');
    if stars != [] then
      assert |stars[0]| < |advice|;
      stars
    else
      var dashes := FindAll(advice, '-');
      if dashes != [] then
        assert |dashes[0]| < |advice|;
        dashes
      else [advice]
  }

  /** The steps of the command-line and dashboard predictors: the `*` captures only. */
  function StarSteps(advice: string): seq<string> {
    FindAll(advice, '*')
  }

  /**
   * Without any bullet the server falls back to the whole text, while the other
   * variants find no step at all.
   */
  lemma NoBulletVariants(advice: string)
    requires !HasBullet(advice, '*') && !HasBullet(advice, '-')
    ensures ServerSteps(advice) == [advice] && StarSteps(advice) == []
  {
    FindAllEmpty(advice, '*');
    FindAllEmpty(advice, '-');
  }

  /** With at least one `*` bullet the three variants agree. */
  lemma StarBulletsAgree(advice: string)
    requires HasBullet(advice, '*')
    ensures ServerSteps(advice) == StarSteps(advice) != []
  {
    FindAllEmpty(advice, '*');
  }

  // ---------------------------------------------------------------------
  // parse_gemini_advice_to_json

  const DemoDeployment: string := "demo-deployment"
  const DefaultNamespace: string := "default"
  const DemoImage: string := "nginx:latest"

  /** The fixed `json_input` of the parsed solution. */
  const DemoFixInput: FixInput := FixInput(DemoDeployment, DefaultNamespace, DemoImage, Some([]))

  /**
   * The dictionary `parse_gemini_advice_to_json` returns. `hasRollback` tells
   * whether the `"rollback": None` key is present.
   */
  datatype Solution = Solution(steps: seq<string>, hasRollback: bool, deployment: string, namespace: string,
                               podName: Option<string>, podJson: PodJson, jsonInput: FixInput)

  /** The analysis server's parser. */
  function ParseServer(advice: string, podName: Option<string>): (s: Solution)
    ensures s.steps == ServerSteps(advice) && |s.steps| >= 1 && !s.hasRollback
    ensures s.deployment == DemoDeployment && s.namespace == DefaultNamespace && s.podName == podName
    ensures s.podJson == EmptyPodJson && Falsy(s.podJson) && s.jsonInput == DemoFixInput
  {
    Solution(ServerSteps(advice), false, DemoDeployment, DefaultNamespace, podName, EmptyPodJson, DemoFixInput)
  }

  /** The parser of the command-line and dashboard predictors. */
  function ParseStar(advice: string, podName: Option<string>): (s: Solution)
    ensures s.steps == FindAll(advice, '*') && s.hasRollback
    ensures s.deployment == DemoDeployment && s.namespace == DefaultNamespace && s.podName == podName
    ensures s.podJson == EmptyPodJson && Falsy(s.podJson) && s.jsonInput == DemoFixInput
  {
    Solution(StarSteps(advice), true, DemoDeployment, DefaultNamespace, podName, EmptyPodJson, DemoFixInput)
  }

  /** The image fix the parsed solution asks for names no pull secret. */
  lemma DemoFixHasNoSecrets(advice: string, podName: Option<string>)
    ensures ParseServer(advice, podName).jsonInput.imagePullSecrets == Some([])
    ensures ParseStar(advice, podName).jsonInput.correctImage == "nginx:latest"
  {
  }

  // ---------------------------------------------------------------------
  // get_remediation_advice

  /**
   * The outcome of the advice request: the text of the first candidate's first
   * part, or an exception (network error, timeout, missing key) with its text.
   */
  datatype AdviceReply = AdviceText(text: string) | AdviceError(error: string)

  const ErrorPrefix: string := "❌ Error from Gemini: "

  /** The server's and the command-line predictor's `get_remediation_advice`: never raises. */
  function ServerAdvice(reply: AdviceReply): (r: string)
    ensures reply.AdviceText? ==> r == reply.text
    ensures reply.AdviceError? ==> |r| >= |ErrorPrefix| && r[..|ErrorPrefix|] == ErrorPrefix
                                   && r[|ErrorPrefix|..] == reply.error
  {
    match reply
    case AdviceText(text) => text
    case AdviceError(error) => ErrorPrefix + error
  }

  const NoSolutionMarker: string := "No predefined solution"

  /**
   * The dashboard predictor's `get_remediation_advice`: an advice text holding
   * "No predefined solution" gives `None`; an exception gives the error text.
   */
  function DashboardAdvice(reply: AdviceReply): (r: Option<string>)
    ensures r.None? <==> reply.AdviceText? && Contains(reply.text, NoSolutionMarker)
    ensures r.Some? ==> r.value == ServerAdvice(reply)
  {
    match reply
    case AdviceText(text) => if Contains(text, NoSolutionMarker) then None else Some(text)
    case AdviceError(error) => Some(ErrorPrefix + error)
  }

  /** An error is never filtered out: its text is truthy. */
  lemma DashboardErrorIsTruthy(error: string)
    ensures Truthy(DashboardAdvice(AdviceError(error)))
  {
    assert DashboardAdvice(AdviceError(error)).value[0] == '❌';
  }

  // ---------------------------------------------------------------------
  // jsonExtractor

  /** A JSON value, as far as the extractor needs one. */
  datatype Json = JNull | JString(s: string) | JNumber(n: int) | JBool(b: bool) | JList(items: seq<Json>)
                | JObject(fields: map<string, Json>)

  /** `data.get(key)`: Python's `None` both for an absent key and for a JSON `null` value. */
  function Get(data: map<string, Json>, key: string): Option<Json> {
    if key in data && data[key] != JNull then Some(data[key]) else None
  }

  /**
   * `jsonExtractor`: the `solution_function` and `rollback_function` entries,
   * `None` when absent or `null`.
   */
  function JsonExtractor(data: map<string, Json>): (r: (Option<Json>, Option<Json>))
    ensures r.0.Some? <==> "solution_function" in data && data["solution_function"] != JNull
    ensures r.1.Some? <==> "rollback_function" in data && data["rollback_function"] != JNull
    ensures r.0.Some? ==> r.0.value == data["solution_function"]
    ensures r.1.Some? ==> r.1.value == data["rollback_function"]
  {
    (Get(data, "solution_function"), Get(data, "rollback_function"))
  }

  /**
   * The extractor returns what was stored under the two keys, whatever else the
   * dictionary holds; a stored `null` reads back as `None`.
   */
  lemma ExtractorReadsBack(data: map<string, Json>, solution: Json, rollback: Json)
    ensures JsonExtractor(data["solution_function" := solution]["rollback_function" := rollback])
         == (if solution == JNull then None else Some(solution), if rollback == JNull then None else Some(rollback))
  {
  }

  /** Other keys do not change the result. */
  lemma ExtractorIgnoresOtherKeys(data: map<string, Json>, key: string, v: Json)
    requires key != "solution_function" && key != "rollback_function"
    ensures JsonExtractor(data[key := v]) == JsonExtractor(data)
  {
  }
}
