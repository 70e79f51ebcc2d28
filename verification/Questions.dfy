/** Questions put at the end of a step's task, and the answer codes a scanner
    reads. */
module Questions {
  import opened Options
  import opened Text
  import opened Lists
  import opened Ids
  import opened Barcode
  import Detector
  import DetectorLedger
  import ScanPipeline

  const YES := "yes"
  const NO := "no"

  datatype QuestionKind = YesNo | Options(entries: seq<string>)

  datatype Question = Question(text: string, kind: QuestionKind, default: Option<string>)

  /** All answers; the position of one decides its code. */
  function Answers(q: Question): seq<string> {
    match q.kind
    case YesNo => [YES, NO]
    case Options(entries) => entries
  }

  /** Two texts with the same normal form are the same answer. */
  function Normal(s: string): string {
    Lower(Trim(s))
  }

  function FirstNormal(answers: seq<string>, wanted: string): (r: Option<string>)
    ensures r.Some? ==> r.value in answers && Normal(r.value) == wanted
    ensures r.None? ==> forall a :: a in answers ==> Normal(a) != wanted
  {
    if answers == [] then None
    else if Normal(answers[0]) == wanted then Some(answers[0])
    else FirstNormal(answers[1..], wanted)
  }

  /** The first of the answers with the text's normal form. */
  function Canonical(q: Question, text: string): (r: Option<string>)
    ensures r.Some? ==> r.value in Answers(q) && Normal(r.value) == Normal(text)
    ensures r.None? <==> forall a :: a in Answers(q) ==> Normal(a) != Normal(text)
  {
    FirstNormal(Answers(q), Normal(text))
  }

  /** The action an answer's position prints as. */
  function BarcodeAction(q: Question, i: nat): ScanAction {
    match q.kind
    case YesNo => if i == 0 then Yes else No
    case Options(_) => Choice(if i + 1 <= MAX_CHOICES then i + 1 else MAX_CHOICES)
  }

  /** The inverse: the answer an action names, if it fits the kind of question. */
  function AnswerFor(q: Question, action: ScanAction): Option<string> {
    match (q.kind, action)
    case (YesNo, Yes) => Some(YES)
    case (YesNo, No) => Some(NO)
    case (Options(entries), Choice(n)) => if 1 <= n <= |entries| then Some(entries[n - 1]) else None
    case _ => None
  }

  function Normals(answers: seq<string>): (r: seq<string>)
    ensures |r| == |answers|
  {
    seq(|answers|, i requires 0 <= i < |answers| => Normal(answers[i]))
  }

  /** A question a program may be saved with. */
  predicate Valid(q: Question) {
    && Trim(q.text) != ""
    && (q.kind.Options? ==>
          && 2 <= |q.kind.entries| <= MAX_CHOICES
          && "" !in Normals(q.kind.entries)
          && NoRepeats(Normals(q.kind.entries)))
    && (q.default.Some? ==> Canonical(q, q.default.value).Some?)
  }

  datatype QuestionError = NoText | BadCount | EmptyAnswer | TwiceAnswered(answer: string) | BadDefault

  /** The check the daemon runs when a program is saved. */
  method Validate(q: Question) returns (r: Result<(), QuestionError>)
    ensures r.Ok? <==> Valid(q)
  {
    if Trim(q.text) == "" {
      return Err(NoText);
    }
    if q.kind.Options? {
      var v := q.kind.entries;
      if |v| < 2 || |v| > MAX_CHOICES {
        return Err(BadCount);
      }
      var seen: seq<string> := [];
      for i := 0 to |v|
        invariant seen == Normals(v)[..i]
        invariant "" !in seen && NoRepeats(seen)
      {
        var a := Normal(v[i]);
        assert Normals(v)[i] == a;
        if a == "" {
          return Err(EmptyAnswer);
        }
        if a in seen {
          return Err(TwiceAnswered(a));
        }
        seen := seen + [a];
      }
      assert Normals(v)[..|v|] == Normals(v);
    }
    if q.default.Some? && Canonical(q, q.default.value).None? {
      return Err(BadDefault);
    }
    return Ok(());
  }

  lemma DistinctAnswers(q: Question)
    requires Valid(q)
    ensures NoRepeats(Normals(Answers(q)))
  {
    if q.kind.YesNo? {
      TrimKeeps(YES);
      TrimKeeps(NO);
      assert |Normal(YES)| == 3 && |Normal(NO)| == 2;
    }
  }

  lemma {:induction false} FirstOfDistinct(answers: seq<string>, i: nat)
    requires i < |answers| && NoRepeats(Normals(answers))
    ensures FirstNormal(answers, Normals(answers)[i]) == Some(answers[i])
  {
    var ns := Normals(answers);
    assert ns[0] == Normal(answers[0]);
    if i > 0 {
      assert Normals(answers[1..]) == ns[1..];
      FirstOfDistinct(answers[1..], i - 1);
    }
  }

  /** Each answer of a valid question is stored as itself. */
  lemma AnswersAreCanonical(q: Question, i: nat)
    requires Valid(q) && i < |Answers(q)|
    ensures Canonical(q, Answers(q)[i]) == Some(Answers(q)[i])
  {
    DistinctAnswers(q);
    FirstOfDistinct(Answers(q), i);
  }

  /** The code printed for an answer means that answer again. */
  lemma PrintedAnswerIsRead(q: Question, i: nat)
    requires Valid(q) && i < |Answers(q)|
    ensures Printable(BarcodeAction(q, i))
    ensures AnswerFor(q, BarcodeAction(q, i)) == Some(Answers(q)[i])
  {
  }

  /** From slip to answer: the code printed for the `i`th answer of a valid
      question, scanned into a waiting detector, dispatches a payload for the
      same task whose action is that answer, stored as written. */
  lemma ScannedAnswerIsTheAnswer(
    cfg: Detector.Config, s: Detector.State, q: Question, i: nat, id: ShortId, ts: seq<nat>)
    requires Valid(q) && i < |Answers(q)|
    requires ScanPipeline.Waiting(cfg, s) && |ts| == |cfg.prefix| + V1_LEN
    requires forall k :: 0 <= k < |ts| ==> ts[k] <= ts[0] + cfg.timeout
    ensures var p := ScanPayload(BarcodeAction(q, i), id);
            ScanPipeline.Delivers(
              cfg, s, Detector.AsKeys(cfg.prefix + Encode(p)), ts, Detector.Scan(Ok(p)))
    ensures AnswerFor(q, BarcodeAction(q, i)) == Some(Answers(q)[i])
    ensures Canonical(q, Answers(q)[i]) == Some(Answers(q)[i])
  {
    PrintedAnswerIsRead(q, i);
    AnswersAreCanonical(q, i);
    ScanPipeline.PrintedCodeIsScanned(cfg, s, ScanPayload(BarcodeAction(q, i), id), ts);
  }
}
