/** Filling in missing options by asking questions (`askMissingOptions` in
    scripts/binary/index.js). The question table has four entries; a
    requested option that is already set is never asked for, and the
    questions go one at a time in the order the options were requested, so
    that each question sees the answers given before it. The prompts are a
    collaborator: a function from a question and the options so far to an
    answer, or to None when the prompt fails. */
module Questions {
  import opened Values
  import opened CliOptions

  datatype Field = PlatformField | VersionField | ZipField | CommitField

  /** The prompts of the `ask` collaborator the release script uses. */
  datatype Question = WhichPlatform | DeployNewVersion | WhichZipFile | ToCommit | GetEnsureVersion

  type Prompter = (Question, Opts) -> Option<ArgValue>

  /** The outcome of a round of questions: the options with the answers
      stored, the questions put, in order, and whether a prompt failed. */
  datatype Answered = Answered(opts: Opts, asked: seq<Question>, failed: bool)

  /** The option name each table entry is keyed by. */
  function Name(f: Field): string {
    match f
    case PlatformField => "platform"
    case VersionField => "version"
    case ZipField => "zip"
    case CommitField => "commit"
  }

  /** The table entry keyed by `name`, if there is one. */
  function FieldNamed(name: string): (r: Option<Field>)
    ensures r.Some? ==> Name(r.value) == name
    ensures r.None? ==> forall f :: Name(f) != name
  {
    if name == "platform" then Some(PlatformField)
    else if name == "version" then Some(VersionField)
    else if name == "zip" then Some(ZipField)
    else if name == "commit" then Some(CommitField)
    else None
  }

  /** The question each table entry asks. */
  function QuestionFor(f: Field): Question {
    match f
    case PlatformField => WhichPlatform
    case VersionField => DeployNewVersion
    case ZipField => WhichZipFile
    case CommitField => ToCommit
  }

  function FieldValue(o: Opts, f: Field): Option<ArgValue> {
    match f
    case PlatformField => o.platform
    case VersionField => o.version
    case ZipField => o.zip
    case CommitField => o.commit
  }

  function WithField(o: Opts, f: Field, v: ArgValue): (r: Opts)
    ensures FieldValue(r, f) == Some(v)
    ensures forall g :: g != f ==> FieldValue(r, g) == FieldValue(o, g)
    ensures r.skipClean == o.skipClean && r.runTests == o.runTests
  {
    match f
    case PlatformField => o.(platform := Some(v))
    case VersionField => o.(version := Some(v))
    case ZipField => o.(zip := Some(v))
    case CommitField => o.(commit := Some(v))
  }

  /** `_.pick(questions, properties)`: the table entries whose key is
      requested, each once, in the order of their first request. */
  function Pick(properties: seq<string>): (fs: seq<Field>)
    ensures forall f :: f in fs <==> Name(f) in properties
    ensures forall i, j :: 0 <= i < j < |fs| ==> fs[i] != fs[j]
  {
    if properties == [] then []
    else
      var init := properties[..|properties| - 1];
      var last := properties[|properties| - 1];
      assert properties == init + [last];
      var rest := Pick(init);
      match FieldNamed(last)
      case Some(f) => if f in rest then rest else rest + [f]
      case None => rest
  }

  /** Option `a` is requested at a position where `b` has not yet been. */
  ghost predicate RequestedBefore(properties: seq<string>, a: string, b: string) {
    exists p :: 0 <= p < |properties| && properties[p] == a && b !in properties[..p + 1]
  }

  /** The picked entries keep the order of the requests. */
  lemma {:induction false} PickKeepsRequestOrder(properties: seq<string>)
    ensures var fs := Pick(properties);
      forall i, j :: 0 <= i < j < |fs| ==> RequestedBefore(properties, Name(fs[i]), Name(fs[j]))
  {
    if properties != [] {
      var init := properties[..|properties| - 1];
      var last := properties[|properties| - 1];
      assert properties == init + [last];
      PickKeepsRequestOrder(init);
      var rest := Pick(init);
      var fs := Pick(properties);
      forall i, j | 0 <= i < j < |fs|
        ensures RequestedBefore(properties, Name(fs[i]), Name(fs[j]))
      {
        if j < |rest| {
          PickPrefix(properties);
          assert fs[i] == rest[i] && fs[j] == rest[j];
          assert RequestedBefore(init, Name(rest[i]), Name(rest[j]));
          var p :| 0 <= p < |init| && init[p] == Name(rest[i]) && Name(rest[j]) !in init[..p + 1];
          assert properties[..p + 1] == init[..p + 1];
          assert properties[p] == init[p];
        } else {
          PickAddsLast(properties, j);
          // fs[j] is the entry added for `last`, so it is not requested in `init`
          assert Name(fs[j]) !in init;
          assert fs[i] == rest[i];
          assert Name(fs[i]) in init;
          var p :| 0 <= p < |init| && init[p] == Name(fs[i]);
          assert properties[..p + 1] == init[..p + 1];
          assert properties[p] == init[p];
        }
      }
    }
  }

  /** Picking from a longer request list only appends. */
  lemma PickPrefix(properties: seq<string>)
    requires properties != []
    ensures var rest := Pick(properties[..|properties| - 1]);
      |rest| <= |Pick(properties)| && Pick(properties)[..|rest|] == rest
  {
  }

  /** An entry past those picked from the shorter list is the one keyed by
      the last request, which the shorter list does not request. */
  lemma PickAddsLast(properties: seq<string>, j: nat)
    requires properties != []
    requires |Pick(properties[..|properties| - 1])| <= j < |Pick(properties)|
    ensures Name(Pick(properties)[j]) == properties[|properties| - 1]
    ensures Name(Pick(properties)[j]) !in properties[..|properties| - 1]
  {
  }

  /** The table rows for the picked entries. */
  function Table(fs: seq<Field>): (qs: seq<(Field, Question)>)
    ensures |qs| == |fs| && forall i :: 0 <= i < |fs| ==> qs[i] == (fs[i], QuestionFor(fs[i]))
  {
    seq(|fs|, i requires 0 <= i < |fs| => (fs[i], QuestionFor(fs[i])))
  }

  /** Ask, in order, every question whose option is still unset, store each
      answer before the next question, and stop at the first failed
      prompt. */
  function AskRemaining(o: Opts, qs: seq<(Field, Question)>, ask: Prompter): (a: Answered)
    ensures !a.failed ==> forall i :: 0 <= i < |qs| ==> FieldValue(a.opts, qs[i].0).Some?
    ensures forall f :: FieldValue(o, f).Some? ==> FieldValue(a.opts, f) == FieldValue(o, f)
    ensures forall f :: (forall i :: 0 <= i < |qs| ==> qs[i].0 != f) ==> FieldValue(a.opts, f) == FieldValue(o, f)
    ensures a.opts.skipClean == o.skipClean && a.opts.runTests == o.runTests
    ensures |a.asked| <= |qs|
    decreases |qs|
  {
    if qs == [] then Answered(o, [], false)
    else
      var (f, q) := qs[0];
      if FieldValue(o, f).Some? then AskRemaining(o, qs[1..], ask)
      else match ask(q, o)
        case None => Answered(o, [q], true)
        case Some(v) =>
          var rest := AskRemaining(WithField(o, f, v), qs[1..], ask);
          Answered(rest.opts, [q] + rest.asked, rest.failed)
  }

  /** `askMissingOptions(properties)(o)`: on success every requested
      option the table knows is set, options already set keep their
      values, and options not requested are untouched. */
  function AskMissingOptions(o: Opts, properties: seq<string>, ask: Prompter): (a: Answered)
    ensures !a.failed ==> forall f :: Name(f) in properties ==> FieldValue(a.opts, f).Some?
    ensures forall f :: FieldValue(o, f).Some? ==> FieldValue(a.opts, f) == FieldValue(o, f)
    ensures forall f :: Name(f) !in properties ==> FieldValue(a.opts, f) == FieldValue(o, f)
    ensures a.opts.skipClean == o.skipClean && a.opts.runTests == o.runTests
  {
    var fs := Pick(properties);
    var qs := Table(fs);
    assert forall f :: Name(f) in properties ==> exists i :: 0 <= i < |qs| && qs[i].0 == f by {
      forall f | Name(f) in properties
        ensures exists i :: 0 <= i < |qs| && qs[i].0 == f
      {
        var i :| 0 <= i < |fs| && fs[i] == f;
        assert qs[i].0 == f;
      }
    }
    AskRemaining(o, qs, ask)
  }

  /** The questions of `qs` whose option is unset in `o`. */
  function MissingQuestions(o: Opts, qs: seq<(Field, Question)>): seq<Question> {
    if qs == [] then []
    else (if FieldValue(o, qs[0].0).None? then [qs[0].1] else []) + MissingQuestions(o, qs[1..])
  }

  predicate DistinctFields(qs: seq<(Field, Question)>) {
    forall i, j :: 0 <= i < j < |qs| ==> qs[i].0 != qs[j].0
  }

  /** When every option is already set, no prompt is shown and nothing
      changes. */
  lemma {:induction false} NothingMissingNothingAsked(o: Opts, qs: seq<(Field, Question)>, ask: Prompter)
    requires forall i :: 0 <= i < |qs| ==> FieldValue(o, qs[i].0).Some?
    ensures AskRemaining(o, qs, ask) == Answered(o, [], false)
  {
    if qs != [] {
      NothingMissingNothingAsked(o, qs[1..], ask);
    }
  }

  /** Setting an option that `qs` does not mention leaves the questions
      missing for `qs` as they were. */
  lemma {:induction false} MissingUnaffected(o: Opts, f: Field, v: ArgValue, qs: seq<(Field, Question)>)
    requires forall i :: 0 <= i < |qs| ==> qs[i].0 != f
    ensures MissingQuestions(WithField(o, f, v), qs) == MissingQuestions(o, qs)
  {
    if qs != [] {
      MissingUnaffected(o, f, v, qs[1..]);
    }
  }

  /** With each option listed once, a round that succeeds asks exactly the
      questions of the unset options, in order; a round that fails asks a
      leading part of them and stops at the prompt that failed. */
  lemma {:induction false} AskedAreTheMissing(o: Opts, qs: seq<(Field, Question)>, ask: Prompter)
    requires DistinctFields(qs)
    ensures var a := AskRemaining(o, qs, ask);
      && (!a.failed ==> a.asked == MissingQuestions(o, qs))
      && (a.failed ==> a.asked != [] && a.asked <= MissingQuestions(o, qs))
    decreases |qs|
  {
    if qs != [] {
      var (f, q) := qs[0];
      assert DistinctFields(qs[1..]);
      if FieldValue(o, f).Some? {
        AskedAreTheMissing(o, qs[1..], ask);
      } else if ask(q, o).Some? {
        var v := ask(q, o).value;
        AskedAreTheMissing(WithField(o, f, v), qs[1..], ask);
        MissingUnaffected(o, f, v, qs[1..]);
      }
    }
  }

  /** A round with a single unset option asks one question and stores its
      answer, and nothing else. */
  lemma {:induction false} OneMissingOneQuestion(o: Opts, qs: seq<(Field, Question)>, k: nat, ask: Prompter)
    requires DistinctFields(qs)
    requires k < |qs| && FieldValue(o, qs[k].0).None?
    requires forall i :: 0 <= i < |qs| && i != k ==> FieldValue(o, qs[i].0).Some?
    ensures var a := AskRemaining(o, qs, ask);
      match ask(qs[k].1, o)
      case Some(v) => a == Answered(WithField(o, qs[k].0, v), [qs[k].1], false)
      case None => a == Answered(o, [qs[k].1], true)
  {
    if k == 0 {
      var (f, q) := qs[0];
      if ask(q, o).Some? {
        var o' := WithField(o, f, ask(q, o).value);
        NothingMissingNothingAsked(o', qs[1..], ask);
      }
    } else {
      OneMissingOneQuestion(o, qs[1..], k - 1, ask);
    }
  }

  /** On a successful round, every option that was unset holds the answer
      its prompt gave, the prompt having seen the record left by the
      entries before it. */
  lemma {:induction false} AnswersStored(o: Opts, qs: seq<(Field, Question)>, ask: Prompter)
    requires DistinctFields(qs)
    ensures var a := AskRemaining(o, qs, ask);
      !a.failed ==> forall i :: 0 <= i < |qs| && FieldValue(o, qs[i].0).None? ==>
        var before := AskRemaining(o, qs[..i], ask);
        !before.failed && FieldValue(a.opts, qs[i].0) == ask(qs[i].1, before.opts)
    decreases |qs|
  {
    var a := AskRemaining(o, qs, ask);
    if qs != [] && !a.failed {
      var (f, q) := qs[0];
      assert DistinctFields(qs[1..]);
      var o' := if FieldValue(o, f).Some? then o else WithField(o, f, ask(q, o).value);
      AnswersStored(o', qs[1..], ask);
      forall i | 0 <= i < |qs| && FieldValue(o, qs[i].0).None?
        ensures var before := AskRemaining(o, qs[..i], ask);
          !before.failed && FieldValue(a.opts, qs[i].0) == ask(qs[i].1, before.opts)
      {
        if i == 0 {
          assert qs[..0] == [];
          assert forall j :: 0 <= j < |qs[1..]| ==> qs[1..][j].0 != f;
        } else {
          assert qs[..i][0] == qs[0];
          assert qs[..i][1..] == qs[1..][..i - 1];
          assert qs[1..][i - 1] == qs[i];
          assert qs[i].0 != f;
        }
      }
    }
  }

  /** With a prompter that always answers, a round never fails and each
      unset option gets its question's answer. */
  lemma AnsweringPrompter(o: Opts, qs: seq<(Field, Question)>, ans: Question -> ArgValue)
    requires DistinctFields(qs)
    ensures var a := AskRemaining(o, qs, (q, _) => Some(ans(q)));
      && !a.failed
      && forall i :: 0 <= i < |qs| && FieldValue(o, qs[i].0).None? ==> FieldValue(a.opts, qs[i].0) == Some(ans(qs[i].1))
  {
    var ask: Prompter := (q, _) => Some(ans(q));
    NeverFails(o, qs, ask);
    AnswersStored(o, qs, ask);
  }

  /** A round whose prompts all answer does not fail. */
  lemma {:induction false} NeverFails(o: Opts, qs: seq<(Field, Question)>, ask: Prompter)
    requires forall q, o' :: ask(q, o').Some?
    ensures !AskRemaining(o, qs, ask).failed
    decreases |qs|
  {
    if qs != [] {
      var (f, q) := qs[0];
      if FieldValue(o, f).Some? {
        NeverFails(o, qs[1..], ask);
      } else {
        NeverFails(WithField(o, f, ask(q, o).value), qs[1..], ask);
      }
    }
  }

  /** A round whose requested options are all set asks nothing and changes
      nothing. */
  lemma AllSetNothingAsked(o: Opts, properties: seq<string>, ask: Prompter)
    requires forall f :: Name(f) in properties ==> FieldValue(o, f).Some?
    ensures AskMissingOptions(o, properties, ask) == Answered(o, [], false)
  {
    var qs := Table(Pick(properties));
    forall i | 0 <= i < |qs| ensures FieldValue(o, qs[i].0).Some? {
      assert qs[i].0 in Pick(properties);
    }
    NothingMissingNothingAsked(o, qs, ask);
  }

  /** The question selection of `askMissingOptions`: only table entries
      that are requested are asked, only while their option is unset, in
      the order of the requests; on success every requested entry is set,
      and options already set keep their values. */
  lemma AskMissingOptionsSelects(o: Opts, properties: seq<string>, ask: Prompter)
    ensures var a := AskMissingOptions(o, properties, ask);
      && (forall q :: q in a.asked ==>
            exists f :: QuestionFor(f) == q && Name(f) in properties && FieldValue(o, f).None?)
      && (!a.failed ==> forall f :: Name(f) in properties ==> FieldValue(a.opts, f).Some?)
      && (forall f :: FieldValue(o, f).Some? ==> FieldValue(a.opts, f) == FieldValue(o, f))
      && (!a.failed ==> a.asked == MissingQuestions(o, Table(Pick(properties))))
  {
    var qs := Table(Pick(properties));
    var a := AskMissingOptions(o, properties, ask);
    AskedAreTheMissing(o, qs, ask);
    forall q | q in a.asked
      ensures exists f :: QuestionFor(f) == q && Name(f) in properties && FieldValue(o, f).None?
    {
      MissingQuestionsFrom(o, qs, q);
    }
    forall f | Name(f) in properties && !a.failed
      ensures FieldValue(a.opts, f).Some?
    {
      var i :| 0 <= i < |Pick(properties)| && Pick(properties)[i] == f;
      assert qs[i].0 == f;
    }
  }

  /** Every missing question belongs to an unset option of `qs`. */
  lemma {:induction false} MissingQuestionsFrom(o: Opts, qs: seq<(Field, Question)>, q: Question)
    requires q in MissingQuestions(o, qs)
    ensures exists i :: 0 <= i < |qs| && qs[i].1 == q && FieldValue(o, qs[i].0).None?
  {
    if FieldValue(o, qs[0].0).None? && q == qs[0].1 {
    } else {
      MissingQuestionsFrom(o, qs[1..], q);
      var i :| 0 <= i < |qs[1..]| && qs[1..][i].1 == q && FieldValue(o, qs[1..][i].0).None?;
      assert qs[i + 1] == qs[1..][i];
    }
  }
}
