/**
 * The second-declension vocabulary of the quiz games: the record of nine
 * inflected forms of a masculine noun, its expansion into nine quiz questions
 * (one per number/case cell, the nominative and vocative plural sharing one),
 * and the constant table of thirteen words built with that expansion.
 *
 * `Answer` and `Question` are the types of src/types/nominalForms.ts; the rest
 * is src/data/secondDeclensionWords.ts.
 */
module SecondDeclension {

  /** What a learner must name for a form: its genders, its number and its cases. */
  datatype Answer = Answer(genders: seq<string>, number: string, cases: seq<string>)

  /** A prompt (an inflected form) and the answer it expects. */
  datatype Question = Question(q: string, a: Answer)

  /** One word of the vocabulary table. */
  datatype WordEntry = WordEntry(nominativeSingular: string, meaning: string, questions: seq<Question>)

  /** The nine quizzed surface forms of a second-declension masculine noun. */
  datatype Forms = Forms(
    nomSg: string, genSg: string, datSg: string, accSg: string, vocSg: string,
    nomVocPl: string, genPl: string, datPl: string, accPl: string)

  const Masculine := "masculine"
  const Singular := "singular"
  const Plural := "plural"
  const Nominative := "nominative"
  const Genitive := "genitive"
  const Dative := "dative"
  const Accusative := "accusative"
  const Vocative := "vocative"

  /** The two numbers and the five cases a paradigm is quizzed on. */
  const Numbers: seq<string> := [Singular, Plural]
  const Cases: seq<string> := [Nominative, Genitive, Dative, Accusative, Vocative]

  /** The fields of a `Forms` record, in their declared order. */
  function Fields(f: Forms): (s: seq<string>)
    ensures |s| == 9
  {
    [f.nomSg, f.genSg, f.datSg, f.accSg, f.vocSg, f.nomVocPl, f.genPl, f.datPl, f.accPl]
  }

  /** The prompts of a list of questions, in order. */
  function Prompts(qs: seq<Question>): (s: seq<string>)
    ensures |s| == |qs|
    ensures forall i :: 0 <= i < |qs| ==> s[i] == qs[i].q
  {
    seq(|qs|, i requires 0 <= i < |qs| => qs[i].q)
  }

  /** Expands a paradigm into its nine questions, singular cells first. */
  function ToQuestions(forms: Forms): (qs: seq<Question>)
    ensures |qs| == 9
  {
    [
      Question(forms.nomSg, Answer([Masculine], Singular, [Nominative])),
      Question(forms.genSg, Answer([Masculine], Singular, [Genitive])),
      Question(forms.datSg, Answer([Masculine], Singular, [Dative])),
      Question(forms.accSg, Answer([Masculine], Singular, [Accusative])),
      Question(forms.vocSg, Answer([Masculine], Singular, [Vocative])),
      Question(forms.nomVocPl, Answer([Masculine], Plural, [Nominative, Vocative])),
      Question(forms.genPl, Answer([Masculine], Plural, [Genitive])),
      Question(forms.datPl, Answer([Masculine], Plural, [Dative])),
      Question(forms.accPl, Answer([Masculine], Plural, [Accusative]))
    ]
  }

  /** True when question `q` accepts the cell (number `n`, case `c`). */
  predicate Holds(q: Question, n: string, c: string) {
    q.a.number == n && c in q.a.cases
  }

  /** How many of the questions accept the cell (`n`, `c`). */
  function CellCount(qs: seq<Question>, n: string, c: string): (k: nat)
    ensures k <= |qs|
    ensures k == 0 <==> forall i :: 0 <= i < |qs| ==> !Holds(qs[i], n, c)
  {
    if qs == [] then 0
    else (if Holds(qs[0], n, c) then 1 else 0) + CellCount(qs[1..], n, c)
  }

  /** A cell accepted by exactly the question at index `i` is counted once. */
  lemma {:induction false} CellCountUnique(qs: seq<Question>, n: string, c: string, i: nat)
    requires i < |qs| && Holds(qs[i], n, c)
    requires forall j :: 0 <= j < |qs| && j != i ==> !Holds(qs[j], n, c)
    ensures CellCount(qs, n, c) == 1
  {
    if i == 0 {
      assert forall j :: 0 <= j < |qs[1..]| ==> !Holds(qs[1..][j], n, c) by {
        forall j | 0 <= j < |qs[1..]| ensures !Holds(qs[1..][j], n, c) {
          assert qs[1..][j] == qs[j + 1];
        }
      }
    } else {
      assert !Holds(qs[0], n, c);
      forall j | 0 <= j < |qs[1..]| && j != i - 1 ensures !Holds(qs[1..][j], n, c) {
        assert qs[1..][j] == qs[j + 1];
      }
      CellCountUnique(qs[1..], n, c, i - 1);
    }
  }

  /** The number of question `i` of an expanded paradigm: the first five are singular. */
  function SlotNumber(i: nat): string {
    if i < 5 then Singular else Plural
  }

  /** The cases of question `i`: the five cases in order for each number, where
      the plural nominative and vocative share question 5. */
  function SlotCases(i: nat): seq<string>
    requires i < 9
  {
    if i < 5 then [Cases[i]]
    else if i == 5 then [Nominative, Vocative]
    else [Cases[i - 5]]
  }

  /** Question `i` of an expansion prompts the `i`-th form field and expects the
      masculine gender, the slot's number and the slot's cases. */
  lemma ToQuestionsSlots(f: Forms)
    ensures Prompts(ToQuestions(f)) == Fields(f)
    ensures forall i :: 0 <= i < 9 ==>
      var qs := ToQuestions(f);
      && qs[i].a.genders == [Masculine]
      && qs[i].a.number == SlotNumber(i)
      && qs[i].a.cases == SlotCases(i)
      && |qs[i].a.cases| == (if i == 5 then 2 else 1)
  {
  }

  /** Every (number, case) cell is accepted by exactly one question of an
      expansion, and no question accepts a cell outside the paradigm. */
  lemma ToQuestionsCoversEachCellOnce(f: Forms, n: string, c: string)
    ensures CellCount(ToQuestions(f), n, c) == if n in Numbers && c in Cases then 1 else 0
  {
    var qs := ToQuestions(f);
    if n in Numbers && c in Cases {
      var i: nat :=
        if n == Singular then
          (if c == Nominative then 0 else if c == Genitive then 1 else if c == Dative then 2
           else if c == Accusative then 3 else 4)
        else
          (if c == Nominative || c == Vocative then 5 else if c == Genitive then 6
           else if c == Dative then 7 else 8);
      CellCountUnique(qs, n, c, i);
    }
  }

  /** The vocabulary table. */
  const SecondDeclensionWords: seq<WordEntry> := [
    WordEntry(
      "ἄνθρωπος", "human being, man",
      ToQuestions(Forms("ἄνθρωπος", "ἀνθρώπου", "ἀνθρώπῳ", "ἄνθρωπον", "ἄνθρωπε", "ἄνθρωποι", "ἀνθρώπων", "ἀνθρώποις", "ἀνθρώπους"))),
    WordEntry(
      "λόγος", "word, reason",
      ToQuestions(Forms("λόγος", "λόγου", "λόγῳ", "λόγον", "λόγε", "λόγοι", "λόγων", "λόγοις", "λόγους"))),
    WordEntry(
      "θεός", "God, god",
      ToQuestions(Forms("θεός", "θεοῦ", "θεῷ", "θεόν", "θεέ", "θεοί", "θεῶν", "θεοῖς", "θεούς"))),
    WordEntry(
      "κύριος", "lord, master",
      ToQuestions(Forms("κύριος", "κυρίου", "κυρίῳ", "κύριον", "κύριε", "κύριοι", "κυρίων", "κυρίοις", "κυρίους"))),
    WordEntry(
      "υἱός", "son",
      ToQuestions(Forms("υἱός", "υἱοῦ", "υἱῷ", "υἱόν", "υἱέ", "υἱοί", "υἱῶν", "υἱοῖς", "υἱούς"))),
    WordEntry(
      "ἀδελφός", "brother",
      ToQuestions(Forms("ἀδελφός", "ἀδελφοῦ", "ἀδελφῷ", "ἀδελφόν", "ἀδελφέ", "ἀδελφοί", "ἀδελφῶν", "ἀδελφοῖς", "ἀδελφούς"))),
    WordEntry(
      "δοῦλος", "slave, servant",
      ToQuestions(Forms("δοῦλος", "δούλου", "δούλῳ", "δοῦλον", "δοῦλε", "δοῦλοι", "δούλων", "δούλοις", "δούλους"))),
    WordEntry(
      "νόμος", "law",
      ToQuestions(Forms("νόμος", "νόμου", "νόμῳ", "νόμον", "νόμε", "νόμοι", "νόμων", "νόμοις", "νόμους"))),
    WordEntry(
      "κόσμος", "world, order",
      ToQuestions(Forms("κόσμος", "κόσμου", "κόσμῳ", "κόσμον", "κόσμε", "κόσμοι", "κόσμων", "κόσμοις", "κόσμους"))),
    WordEntry(
      "ἄγγελος", "messenger, angel",
      ToQuestions(Forms("ἄγγελος", "ἀγγέλου", "ἀγγέλῳ", "ἄγγελον", "ἄγγελε", "ἄγγελοι", "ἀγγέλων", "ἀγγέλοις", "ἀγγέλους"))),
    WordEntry(
      "ἀπόστολος", "apostle, messenger",
      ToQuestions(Forms("ἀπόστολος", "ἀποστόλου", "ἀποστόλῳ", "ἀπόστολον", "ἀπόστολε", "ἀπόστολοι", "ἀποστόλων", "ἀποστόλοις", "ἀποστόλους"))),
    WordEntry(
      "οὐρανός", "heaven, sky",
      ToQuestions(Forms("οὐρανός", "οὐρανοῦ", "οὐρανῷ", "οὐρανόν", "οὐρανέ", "οὐρανοί", "οὐρανῶν", "οὐρανοῖς", "οὐρανούς"))),
    WordEntry(
      "ὄχλος", "crowd, multitude",
      ToQuestions(Forms("ὄχλος", "ὄχλου", "ὄχλῳ", "ὄχλον", "ὄχλε", "ὄχλοι", "ὄχλων", "ὄχλοις", "ὄχλους")))
  ]

  /** Pairwise distinctness of a sequence of prompts. */
  ghost predicate Distinct(s: seq<string>) {
    forall i, j :: 0 <= i < j < |s| ==> s[i] != s[j]
  }

  /** Each of the thirteen entries has nine questions, the first of which is
      the entry's head word. */
  lemma TableShape()
    ensures |SecondDeclensionWords| == 13
    ensures forall e :: e in SecondDeclensionWords ==>
      |e.questions| == 9 && e.questions[0].q == e.nominativeSingular
  {
  }

  /** No prompt repeats within an entry. */
  lemma TablePromptsDistinct()
    ensures forall e :: e in SecondDeclensionWords ==> Distinct(Prompts(e.questions))
  {
    forall k | 0 <= k < |SecondDeclensionWords|
      ensures Distinct(Prompts(SecondDeclensionWords[k].questions))
    {
      if k < 4 {
        EntriesDistinctA(k);
      } else if k < 7 {
        EntriesDistinctB(k);
      } else if k < 10 {
        EntriesDistinctC(k);
      } else {
        EntriesDistinctD(k);
      }
    }
  }

  // The table is checked in four parts, entry by entry, so that each proof
  // stays small.

  /** Entries 0-3 have pairwise distinct prompts. */
  lemma EntriesDistinctA(k: nat)
    requires 0 <= k < 4
    ensures Distinct(Prompts(SecondDeclensionWords[k].questions))
  {
    if k == 0 {
      assert Distinct(Prompts(SecondDeclensionWords[0].questions));
    } else if k == 1 {
      assert Distinct(Prompts(SecondDeclensionWords[1].questions));
    } else if k == 2 {
      assert Distinct(Prompts(SecondDeclensionWords[2].questions));
    } else {
      assert Distinct(Prompts(SecondDeclensionWords[3].questions));
    }
  }

  /** Entries 4-6 have pairwise distinct prompts. */
  lemma EntriesDistinctB(k: nat)
    requires 4 <= k < 7
    ensures Distinct(Prompts(SecondDeclensionWords[k].questions))
  {
    if k == 4 {
      assert Distinct(Prompts(SecondDeclensionWords[4].questions));
    } else if k == 5 {
      assert Distinct(Prompts(SecondDeclensionWords[5].questions));
    } else {
      assert Distinct(Prompts(SecondDeclensionWords[6].questions));
    }
  }

  /** Entries 7-9 have pairwise distinct prompts. */
  lemma EntriesDistinctC(k: nat)
    requires 7 <= k < 10
    ensures Distinct(Prompts(SecondDeclensionWords[k].questions))
  {
    if k == 7 {
      assert Distinct(Prompts(SecondDeclensionWords[7].questions));
    } else if k == 8 {
      assert Distinct(Prompts(SecondDeclensionWords[8].questions));
    } else {
      assert Distinct(Prompts(SecondDeclensionWords[9].questions));
    }
  }

  /** Entries 10-12 have pairwise distinct prompts. */
  lemma EntriesDistinctD(k: nat)
    requires 10 <= k < 13
    ensures Distinct(Prompts(SecondDeclensionWords[k].questions))
  {
    if k == 10 {
      assert Distinct(Prompts(SecondDeclensionWords[10].questions));
    } else if k == 11 {
      assert Distinct(Prompts(SecondDeclensionWords[11].questions));
    } else {
      assert Distinct(Prompts(SecondDeclensionWords[12].questions));
    }
  }
}
