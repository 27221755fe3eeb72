/**
 * The records of the failure ledger `failure_details` and the texts built from
 * them: the alert e-mail body and the log excerpt shown after a log fetch.
 */
module Ledger {
  import opened Wrappers

  /** One ledger entry: `{'failure': …, 'action': …, 'error_message': …}`; the last key may be absent. */
  datatype Record = Record(failure: string, action: string, errorMessage: Option<string>)

  const ReportHeader: string := "Alert: Below is the failure report for the last 2 minutes:\n\n"

  /** `"-" * 50`. */
  const Rule: string := "--------------------------------------------------"

  /** The four lines the alert body holds for one record. */
  function Block(r: Record): (b: string)
    ensures |b| == 92 + |r.failure| + |r.action| + |r.errorMessage.GetOr("No error message")|
  {
    "Failure: " + r.failure + "\n"
    + "Action Taken: " + r.action + "\n"
    + "Error Message: " + r.errorMessage.GetOr("No error message") + "\n"
    + Rule + "\n"
  }

  /** A record's block opens with its "Failure:" line and closes with the rule. */
  lemma BlockShape(r: Record)
    ensures Block(r)[..9] == "Failure: " && Block(r)[|Block(r)| - 51..] == Rule + "\n"
  {
  }

  function Blocks(rs: seq<Record>): (b: string)
    ensures |b| >= 92 * |rs|
    decreases |rs|
  {
    if rs == [] then "" else Blocks(rs[..|rs| - 1]) + Block(rs[|rs| - 1])
  }

  /** The alert e-mail body for the drained ledger `rs`. */
  function Report(rs: seq<Record>): (body: string)
    ensures |body| >= |ReportHeader| + 92 * |rs|
    ensures body[..|ReportHeader|] == ReportHeader
  {
    ReportHeader + Blocks(rs)
  }

  /** The `body +=` loop of `send_alert_email`. */
  method AlertBody(details: seq<Record>) returns (body: string)
    ensures body == Report(details)
    ensures |body| >= |ReportHeader| + 92 * |details|
  {
    body := ReportHeader;
    for i := 0 to |details|
      invariant body == Report(details[..i])
    {
      var detail := details[i];
      ghost var before := body;
      body := body + "Failure: " + detail.failure + "\n";
      body := body + "Action Taken: " + detail.action + "\n";
      body := body + "Error Message: " + detail.errorMessage.GetOr("No error message") + "\n";
      body := body + Rule + "\n";
      AppendBlock(before, detail);
      ReportNext(details, i);
    }
    assert details[..|details|] == details;
  }

  /** The four appends of the loop add one block. */
  lemma AppendBlock(prefix: string, r: Record)
    ensures prefix + "Failure: " + r.failure + "\n"
      + "Action Taken: " + r.action + "\n"
      + "Error Message: " + r.errorMessage.GetOr("No error message") + "\n"
      + Rule + "\n"
      == prefix + Block(r)
  {
  }

  /** One more record adds its block at the end of the report. */
  lemma ReportNext(details: seq<Record>, i: nat)
    requires i < |details|
    ensures Report(details[..i + 1]) == Report(details[..i]) + Block(details[i])
  {
    assert details[..i + 1][..i] == details[..i];
    AppendAssoc(ReportHeader, Blocks(details[..i]), Block(details[i]));
  }

  /** The blocks of a concatenation are the concatenation of the blocks: order is kept. */
  lemma {:induction false} BlocksAppend(a: seq<Record>, b: seq<Record>)
    ensures Blocks(a + b) == Blocks(a) + Blocks(b)
    decreases |b|
  {
    if b != [] {
      var b' := b[..|b| - 1];
      assert (a + b)[..|a + b| - 1] == a + b';
      assert (a + b)[|a + b| - 1] == b[|b| - 1];
      BlocksAppend(a, b');
      AppendAssoc(Blocks(a), Blocks(b'), Block(b[|b| - 1]));
    } else {
      assert a + b == a;
    }
  }

  /** The body lists the first record's block first, then the rest in ledger order. */
  lemma ReportStartsWithFirstRecord(rs: seq<Record>)
    requires rs != []
    ensures Report(rs) == ReportHeader + Block(rs[0]) + Blocks(rs[1..])
  {
    assert rs == [rs[0]] + rs[1..];
    BlocksAppend([rs[0]], rs[1..]);
    assert Blocks([rs[0]]) == Block(rs[0]);
  }

  /** The log text emitted after a fetch: the first 500 characters, and "..." when there are more. */
  function LogExcerpt(logs: string): (r: string)
    ensures |r| <= 503
    ensures |logs| <= 500 ==> r == logs
    ensures |logs| > 500 ==> |r| == 503 && r[..500] == logs[..500] && r[500..] == "..."
  {
    logs[..if |logs| < 500 then |logs| else 500] + (if |logs| > 500 then "..." else "")
  }
}
