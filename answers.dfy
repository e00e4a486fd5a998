/** What the page script derives from a question list that the `getinfo`
    response carries (ioe.js:102-222): the answers of each question sorted
    by `orderTrue`, joined with " / ", the fallback chain that picks the
    answer shown, the question-type names, the listening questions whose
    audio can be transcribed, and the `showAll` summary.

    A missing or empty text field is modelled as "", which is exactly when
    JavaScript treats it as false; a missing `orderTrue` is `None`. */
module Answers {
  import opened Common

  datatype Answer = Answer(content: string, orderTrue: Option<int>)

  /** One question of `gameData.question`: `type` (0 when missing), the three
      possible answer lists (`None` when the field is missing or null; an
      empty array is present), `Description.content` and `content.content`. */
  datatype Question = Question(
    qtype: int,
    ans: Option<seq<Answer>>,
    tans: Option<seq<Answer>>,
    tansDB: Option<seq<Answer>>,
    description: string,
    content: string)

  /** One question as shown: the passage, the question line and the answer. */
  datatype Entry = Entry(passage: string, question: string, answer: string)

  /** An element of `audioFiles`: the 1-based question number, the first
      audio link found in the passage and the passage itself. */
  datatype AudioFile = AudioFile(questionNum: int, audioUrl: string, description: string)

  // ---------------------------------------------------------------------
  // Question types (ioe.js:109-114)

  /** The name shown for a question type; every other type is "Unknown". */
  function TypeName(t: int): (name: string)
    ensures name != "Unknown" <==> 1 <= t <= 4
    ensures t == 1 ==> name == "TRUE/FALSE"
    ensures t == 2 ==> name == "FILL IN BLANK"
    ensures t == 3 ==> name == "SENTENCE REWRITE"
    ensures t == 4 ==> name == "LISTENING"
  {
    if t == 1 then "TRUE/FALSE"
    else if t == 2 then "FILL IN BLANK"
    else if t == 3 then "SENTENCE REWRITE"
    else if t == 4 then "LISTENING"
    else "Unknown"
  }

  /** The four known types have four different names. */
  lemma TypeNamesDistinct(s: int, t: int)
    requires 1 <= s <= 4 && 1 <= t <= 4 && TypeName(s) == TypeName(t)
    ensures s == t
  {
  }

  /** The type shown for the whole game: that of the first question, or 0
      for an empty list. */
  function GameType(questions: seq<Question>): (t: int)
    ensures |questions| > 0 ==> t == questions[0].qtype
    ensures |questions| == 0 ==> TypeName(t) == "Unknown"
  {
    if |questions| > 0 then questions[0].qtype else 0
  }

  // ---------------------------------------------------------------------
  // Sorting by `orderTrue ?? 999` (ioe.js:123-125)

  /** `a.orderTrue ?? 999`: answers without an order go after every answer
      ordered below 999. */
  function Key(a: Answer): (k: int)
    ensures a.orderTrue.Some? ==> k == a.orderTrue.value
    ensures a.orderTrue.None? ==> k == 999
  {
    match a.orderTrue
    case Some(v) => v
    case None => 999
  }

  ghost predicate SortedByKey(s: seq<Answer>) {
    forall i, j :: 0 <= i < j < |s| ==> Key(s[i]) <= Key(s[j])
  }

  /** `q.ans || q.tans || q.tansDB || []`: the first list that is present;
      an empty list counts as present. */
  function AnswerList(q: Question): (s: seq<Answer>)
    ensures q.ans.Some? ==> s == q.ans.value
    ensures q.ans.None? && q.tans.Some? ==> s == q.tans.value
    ensures q.ans.None? && q.tans.None? && q.tansDB.Some? ==> s == q.tansDB.value
    ensures q.ans.None? && q.tans.None? && q.tansDB.None? ==> s == []
  {
    if q.ans.Some? then q.ans.value
    else if q.tans.Some? then q.tans.value
    else if q.tansDB.Some? then q.tansDB.value
    else []
  }

  /** Put `x` before the first element whose key is not smaller: `x` goes
      ahead of the elements with its own key, which is what keeps the sort
      stable. */
  function Insert(x: Answer, s: seq<Answer>): (r: seq<Answer>)
    ensures |r| == |s| + 1
  {
    if s == [] || Key(x) <= Key(s[0]) then [x] + s
    else [s[0]] + Insert(x, s[1..])
  }

  /** `.sort((a, b) => (a.orderTrue ?? 999) - (b.orderTrue ?? 999))`, as an
      insertion sort; `SortByOrderCorrect` states what it computes. */
  function SortByOrder(s: seq<Answer>): (r: seq<Answer>)
    ensures |r| == |s|
  {
    if s == [] then [] else Insert(s[0], SortByOrder(s[1..]))
  }

  /** Inserting adds `x` and keeps every element. */
  lemma {:induction false} InsertPermutes(x: Answer, s: seq<Answer>)
    ensures multiset(Insert(x, s)) == multiset(s) + multiset{x}
    decreases |s|
  {
    if s != [] && Key(x) > Key(s[0]) {
      InsertPermutes(x, s[1..]);
      assert s == [s[0]] + s[1..];
    }
  }

  /** Inserting into a sorted list gives a sorted list. */
  lemma {:induction false} InsertSorted(x: Answer, s: seq<Answer>)
    requires SortedByKey(s)
    ensures SortedByKey(Insert(x, s))
    decreases |s|
  {
    if s == [] || Key(x) <= Key(s[0]) {
      forall a | a in s ensures Key(x) <= Key(a) {
        var j :| 0 <= j < |s| && s[j] == a;
      }
      SortedCons(x, s);
    } else {
      var r := Insert(x, s[1..]);
      assert SortedByKey(s[1..]) by {
        forall i, j | 0 <= i < j < |s[1..]| ensures Key(s[1..][i]) <= Key(s[1..][j]) {
          assert s[1..][i] == s[i + 1] && s[1..][j] == s[j + 1];
        }
      }
      InsertSorted(x, s[1..]);
      InsertPermutes(x, s[1..]);
      forall a | a in r ensures Key(s[0]) <= Key(a) {
        assert a in multiset(r);
        if a != x {
          assert a in multiset(s[1..]);
          var j :| 0 <= j < |s[1..]| && s[1..][j] == a;
          assert s[j + 1] == a;
        }
      }
      SortedCons(s[0], r);
    }
  }

  /** A sorted list stays sorted when an element no larger than any of its
      elements is put in front. */
  lemma SortedCons(a: Answer, s: seq<Answer>)
    requires SortedByKey(s) && forall b :: b in s ==> Key(a) <= Key(b)
    ensures SortedByKey([a] + s)
  {
    forall i, j | 0 <= i < j < |[a] + s| ensures Key(([a] + s)[i]) <= Key(([a] + s)[j]) {
      assert ([a] + s)[j] == s[j - 1];
      if i > 0 {
        assert ([a] + s)[i] == s[i - 1];
      }
    }
  }

  /** The sort gives the answers in ascending key order, and exactly the
      answers it was given. */
  lemma {:induction false} SortByOrderCorrect(s: seq<Answer>)
    ensures SortedByKey(SortByOrder(s))
    ensures multiset(SortByOrder(s)) == multiset(s)
    decreases |s|
  {
    if s != [] {
      SortByOrderCorrect(s[1..]);
      InsertSorted(s[0], SortByOrder(s[1..]));
      InsertPermutes(s[0], SortByOrder(s[1..]));
      assert s == [s[0]] + s[1..];
    }
  }

  /** The answers whose key is `k`, in their original order. */
  function WithKey(s: seq<Answer>, k: int): seq<Answer> {
    if s == [] then []
    else (if Key(s[0]) == k then [s[0]] else []) + WithKey(s[1..], k)
  }

  lemma {:induction false} WithKeyInsert(x: Answer, s: seq<Answer>, k: int)
    ensures WithKey(Insert(x, s), k) == (if Key(x) == k then [x] else []) + WithKey(s, k)
    decreases |s|
  {
    var mine := if Key(x) == k then [x] else [];
    if s == [] || Key(x) <= Key(s[0]) {
      assert ([x] + s)[0] == x && ([x] + s)[1..] == s;
      assert WithKey([x] + s, k) == mine + WithKey(s, k);
    } else {
      var r := Insert(x, s[1..]);
      var first := if Key(s[0]) == k then [s[0]] else [];
      assert ([s[0]] + r)[0] == s[0] && ([s[0]] + r)[1..] == r;
      assert WithKey([s[0]] + r, k) == first + WithKey(r, k);
      WithKeyInsert(x, s[1..], k);
      assert WithKey(s, k) == first + WithKey(s[1..], k);
      // `x` and `s[0]` have different keys, so at most one of them is kept.
      assert first == [] || mine == [];
    }
  }

  /** The sort is stable: answers with equal keys keep their relative order
      (the sort `Array.prototype.sort` has been required to perform since
      ECMAScript 2019). */
  lemma {:induction false} SortStable(s: seq<Answer>, k: int)
    ensures WithKey(SortByOrder(s), k) == WithKey(s, k)
    decreases |s|
  {
    if s != [] {
      SortStable(s[1..], k);
      WithKeyInsert(s[0], SortByOrder(s[1..]), k);
    }
  }

  /** Sorting a sorted list changes nothing. So the in-place sort `showAll`
      performs on a question's own list (ioe.js:211) does not change what
      is derived from that question afterwards. */
  lemma {:induction false} SortIdempotent(s: seq<Answer>)
    ensures SortByOrder(SortByOrder(s)) == SortByOrder(s)
  {
    SortByOrderCorrect(s);
    SortedFixed(SortByOrder(s));
  }

  lemma {:induction false} SortedFixed(s: seq<Answer>)
    requires SortedByKey(s)
    ensures SortByOrder(s) == s
    decreases |s|
  {
    if s != [] {
      SortedFixed(s[1..]);
      assert s == [s[0]] + s[1..];
    }
  }

  // ---------------------------------------------------------------------
  // Joining and the answer fallback chain (ioe.js:131-169, 213-217)

  /** `Array.prototype.join(sep)` over strings. */
  function Join(parts: seq<string>, sep: string): (r: string)
    ensures |parts| == 0 ==> r == ""
    ensures |parts| == 1 ==> r == parts[0]
  {
    if |parts| == 0 then ""
    else if |parts| == 1 then parts[0]
    else parts[0] + sep + Join(parts[1..], sep)
  }

  function TotalLength(parts: seq<string>): nat {
    if parts == [] then 0 else |parts[0]| + TotalLength(parts[1..])
  }

  /** The joined text holds every part and one separator between each two. */
  lemma {:induction false} JoinLength(parts: seq<string>, sep: string)
    requires |parts| >= 1
    ensures |Join(parts, sep)| == TotalLength(parts) + |sep| * (|parts| - 1)
    decreases |parts|
  {
    if |parts| > 1 {
      JoinLength(parts[1..], sep);
    } else {
      assert parts[1..] == [];
    }
  }

  /** Joining one more part adds the separator and that part at the end. */
  lemma {:induction false} JoinAppend(parts: seq<string>, last: string, sep: string)
    requires |parts| >= 1
    ensures Join(parts + [last], sep) == Join(parts, sep) + sep + last
    decreases |parts|
  {
    assert (parts + [last])[1..] == parts[1..] + [last];
    if |parts| > 1 {
      JoinAppend(parts[1..], last, sep);
    }
  }

  /** `answers.map(a => a.content)`. */
  function Contents(answers: seq<Answer>): (r: seq<string>)
    ensures |r| == |answers| && forall i :: 0 <= i < |r| ==> r[i] == answers[i].content
  {
    seq(|answers|, i requires 0 <= i < |answers| => answers[i].content)
  }

  /** `hasAns && gameAns[idx]?.ans`, with "" standing for a missing entry. */
  function GameAnsAt(gameAns: seq<string>, idx: nat): (a: string)
    ensures a != "" ==> idx < |gameAns| && a == gameAns[idx]
  {
    if idx < |gameAns| then gameAns[idx] else ""
  }

  /** The first two links of the chain: the sorted answers joined with
      " / " when the first of them has content, else the entry of
      `gameAns`, else "". */
  function ListedAnswer(q: Question, idx: nat, gameAns: seq<string>): (a: string)
    ensures a == "" ==> GameAnsAt(gameAns, idx) == ""
    ensures a == "" ==> var sorted := SortByOrder(AnswerList(q)); |sorted| == 0 || sorted[0].content == ""
  {
    var sorted := SortByOrder(AnswerList(q));
    if |sorted| > 0 && sorted[0].content != "" then
      JoinFirst(Contents(sorted), " / ");
      Join(Contents(sorted), " / ")
    else GameAnsAt(gameAns, idx)
  }

  /** Which answer the chain shows, stated by cases: the joined list wins
      whenever the first sorted answer has content; `gameAns` is consulted
      only otherwise; "" only when both are missing. */
  lemma ListedAnswerCases(q: Question, idx: nat, gameAns: seq<string>)
    ensures var sorted := SortByOrder(AnswerList(q));
      && (|sorted| > 0 && sorted[0].content != "" ==> ListedAnswer(q, idx, gameAns) == Join(Contents(sorted), " / "))
      && (!(|sorted| > 0 && sorted[0].content != "") ==> ListedAnswer(q, idx, gameAns) == GameAnsAt(gameAns, idx))
      && (ListedAnswer(q, idx, gameAns) == "" ==> GameAnsAt(gameAns, idx) == "" && (|sorted| == 0 || sorted[0].content == ""))
  {
    var sorted := SortByOrder(AnswerList(q));
    if |sorted| > 0 && sorted[0].content != "" {
      JoinFirst(Contents(sorted), " / ");
    }
  }

  /** A join starts with its first part, so it is empty only if that is. */
  lemma {:induction false} JoinFirst(parts: seq<string>, sep: string)
    requires |parts| >= 1
    ensures |Join(parts, sep)| >= |parts[0]|
    ensures Join(parts, sep)[..|parts[0]|] == parts[0]
  {
    if |parts| > 1 {
      var rest := sep + Join(parts[1..], sep);
      assert Join(parts, sep) == parts[0] + rest;
    }
  }

  /** The prompt for a listening question without an answer. */
  function TranscribeHint(idx: nat): (h: string)
    ensures |h| >= 13 && h[..11] == "transcribe(" && h[|h| - 1] == ')'
    ensures var arg := h[11..|h| - 1];
      (forall i :: 0 <= i < |arg| ==> IsDigit(arg[i])) && ParseDigits(arg) == idx + 1
  {
    var num := NatToString(idx + 1);
    assert ("transcribe(" + num + ")")[11..|num| + 11] == num;
    ParseNatToString(idx + 1);
    "transcribe(" + num + ")"
  }

  /** What the question loop shows for question `idx` (ioe.js:121-169);
      `DeriveCases` states what it gives. Types 1 to 4 take the passage
      from the description; any other type shows nothing, not even its
      answers. */
  function Derive(q: Question, idx: nat, gameAns: seq<string>): (e: Entry)
    ensures 1 <= q.qtype <= 4 ==> e.passage == q.description
    ensures !(1 <= q.qtype <= 4) ==> e == Entry("", "", "")
  {
    var listed := ListedAnswer(q, idx, gameAns);
    if q.qtype == 1 then
      Entry(q.description,
            if q.content != "" then q.content else "N/A",
            if listed != "" then listed else "TRUE hoặc FALSE")
    else if q.qtype == 2 || q.qtype == 3 then
      Entry(q.description,
            if q.content != "" then q.content else if q.description != "" then q.description else "N/A",
            listed)
    else if q.qtype == 4 then
      Entry(q.description, "\U{1F3A7} LISTENING",
            if listed != "" then listed else "Gõ: " + TranscribeHint(idx))
    else Entry("", "", "")
  }

  /** For types 1 to 4 a listed answer is shown as it is; without one the
      answer falls back to "TRUE hoặc FALSE" for type 1 and to the
      transcribe prompt for type 4, so those two always show an answer, and
      types 2 and 3 show "". Types 1 to 3 always show a question. */
  lemma DeriveCases(q: Question, idx: nat, gameAns: seq<string>)
    ensures var e := Derive(q, idx, gameAns);
      && (q.qtype == 1 || q.qtype == 4 ==> e.answer != "")
      && (1 <= q.qtype <= 3 ==> e.question != "")
      && (1 <= q.qtype <= 4 && ListedAnswer(q, idx, gameAns) != "" ==> e.answer == ListedAnswer(q, idx, gameAns))
      && (q.qtype == 1 && ListedAnswer(q, idx, gameAns) == "" ==> e.answer == "TRUE hoặc FALSE")
      && ((q.qtype == 2 || q.qtype == 3) && ListedAnswer(q, idx, gameAns) == "" ==> e.answer == "")
      && (q.qtype == 4 && ListedAnswer(q, idx, gameAns) == "" ==> e.answer == "Gõ: " + TranscribeHint(idx))
  {
  }

  /** The entries of the whole question list: entry `i` is derived from
      question `i` with index `i`. */
  function DeriveAll(questions: seq<Question>, gameAns: seq<string>): (es: seq<Entry>)
    ensures |es| == |questions|
  {
    seq(|questions|, i requires 0 <= i < |questions| => Derive(questions[i], i, gameAns))
  }

  // ---------------------------------------------------------------------
  // Listening questions (ioe.js:149-161, 231-233)

  /** Whether question `idx` is listed in `audioFiles`: a type-4 question
      whose passage is non-empty and contains an audio link. The regular
      expression is not modelled: `firstMatch` is the first link it finds. */
  predicate HasAudio(q: Question, firstMatch: Option<string>)
    ensures HasAudio(q, firstMatch) ==> TypeName(q.qtype) == "LISTENING"
  {
    q.qtype == 4 && q.description != "" && firstMatch.Some?
  }

  /** `audioFiles` after the question loop, starting from question `from`. */
  function AudioFilesFrom(questions: seq<Question>, matches: seq<Option<string>>, from: nat): (fs: seq<AudioFile>)
    requires |matches| == |questions| && from <= |questions|
    ensures forall i :: 0 <= i < |fs| ==> from + 1 <= fs[i].questionNum <= |questions|
    ensures forall i, j :: 0 <= i < j < |fs| ==> fs[i].questionNum < fs[j].questionNum
    decreases |questions| - from
  {
    if from == |questions| then []
    else
      var rest := AudioFilesFrom(questions, matches, from + 1);
      if HasAudio(questions[from], matches[from])
      then [AudioFile(from + 1, matches[from].value, questions[from].description)] + rest
      else rest
  }

  function AudioFiles(questions: seq<Question>, matches: seq<Option<string>>): (fs: seq<AudioFile>)
    requires |matches| == |questions|
    ensures forall i, j :: 0 <= i < j < |fs| ==> fs[i].questionNum < fs[j].questionNum
  {
    AudioFilesFrom(questions, matches, 0)
  }

  /** `audioFiles.find(a => a.questionNum === num)`. */
  function FindAudio(files: seq<AudioFile>, num: int): (r: Option<AudioFile>)
    ensures r.Some? ==> r.value in files && r.value.questionNum == num
    ensures r.None? ==> forall i :: 0 <= i < |files| ==> files[i].questionNum != num
  {
    if files == [] then None
    else if files[0].questionNum == num then Some(files[0])
    else FindAudio(files[1..], num)
  }

  /** What `transcribe(num)` should find among the files of questions
      `from` onwards: the file of question `num` when that question is
      listed, else nothing. */
  function ExpectedAudio(questions: seq<Question>, matches: seq<Option<string>>, from: nat, num: int): Option<AudioFile>
    requires |matches| == |questions|
  {
    if from + 1 <= num <= |questions| && HasAudio(questions[num - 1], matches[num - 1])
    then Some(AudioFile(num, matches[num - 1].value, questions[num - 1].description))
    else None
  }

  lemma {:induction false} FindAudioFrom(questions: seq<Question>, matches: seq<Option<string>>, from: nat, num: int)
    requires |matches| == |questions| && from <= |questions|
    ensures FindAudio(AudioFilesFrom(questions, matches, from), num) == ExpectedAudio(questions, matches, from, num)
    decreases |questions| - from
  {
    if from < |questions| {
      FindAudioFrom(questions, matches, from + 1, num);
      var rest := AudioFilesFrom(questions, matches, from + 1);
      if num == from + 1 {
        assert ExpectedAudio(questions, matches, from + 1, num) == None;
      } else {
        assert ExpectedAudio(questions, matches, from, num) == ExpectedAudio(questions, matches, from + 1, num);
      }
      if HasAudio(questions[from], matches[from]) {
        var f := AudioFile(from + 1, matches[from].value, questions[from].description);
        assert AudioFilesFrom(questions, matches, from) == [f] + rest;
        FindAudioCons(f, rest, num);
        if num == from + 1 {
          assert ExpectedAudio(questions, matches, from, num) == Some(f);
        }
      } else {
        assert AudioFilesFrom(questions, matches, from) == rest;
        if num == from + 1 {
          assert ExpectedAudio(questions, matches, from, num) == None;
        }
      }
    }
  }

  /** Searching a list that starts with `f` finds `f` or searches on. */
  lemma FindAudioCons(f: AudioFile, rest: seq<AudioFile>, num: int)
    ensures FindAudio([f] + rest, num) == if f.questionNum == num then Some(f) else FindAudio(rest, num)
  {
    assert ([f] + rest)[0] == f && ([f] + rest)[1..] == rest;
  }

  /** `transcribe(num)` finds audio exactly for the listening questions
      that have a link, and then the file of that very question. */
  lemma FindAudioCorrect(questions: seq<Question>, matches: seq<Option<string>>, num: int)
    requires |matches| == |questions|
    ensures var r := FindAudio(AudioFiles(questions, matches), num);
      && (r.Some? <==> 1 <= num <= |questions| && HasAudio(questions[num - 1], matches[num - 1]))
      && (r.Some? ==> r.value == AudioFile(num, matches[num - 1].value, questions[num - 1].description))
  {
    FindAudioFrom(questions, matches, 0, num);
  }

  /** One turn of the question loop keeps `audioFiles` a prefix of the
      final list, the rest being what the later questions add. */
  lemma AudioFilesStep(questions: seq<Question>, matches: seq<Option<string>>, idx: nat, acc: seq<AudioFile>)
    requires |matches| == |questions| && idx < |questions|
    requires acc + AudioFilesFrom(questions, matches, idx) == AudioFiles(questions, matches)
    ensures var acc' := if HasAudio(questions[idx], matches[idx])
                        then acc + [AudioFile(idx + 1, matches[idx].value, questions[idx].description)]
                        else acc;
      acc' + AudioFilesFrom(questions, matches, idx + 1) == AudioFiles(questions, matches)
  {
    var rest := AudioFilesFrom(questions, matches, idx + 1);
    if HasAudio(questions[idx], matches[idx]) {
      var f := AudioFile(idx + 1, matches[idx].value, questions[idx].description);
      assert acc + [f] + rest == acc + ([f] + rest);
    }
  }

  /** The question loop of the `getinfo` handler (ioe.js:121-186): one
      entry per question, and `audioFiles.push` for each listening question
      with a link. */
  method ProcessQuestions(questions: seq<Question>, gameAns: seq<string>, matches: seq<Option<string>>)
    returns (entries: seq<Entry>, audioFiles: seq<AudioFile>)
    requires |matches| == |questions|
    ensures entries == DeriveAll(questions, gameAns)
    ensures audioFiles == AudioFiles(questions, matches)
  {
    entries, audioFiles := [], [];
    var idx := 0;
    while idx < |questions|
      invariant 0 <= idx <= |questions|
      invariant entries == DeriveAll(questions, gameAns)[..idx]
      invariant audioFiles + AudioFilesFrom(questions, matches, idx) == AudioFiles(questions, matches)
    {
      var q := questions[idx];
      AudioFilesStep(questions, matches, idx, audioFiles);
      if HasAudio(q, matches[idx]) {
        audioFiles := audioFiles + [AudioFile(idx + 1, matches[idx].value, q.description)];
      }
      EntriesStep(questions, gameAns, idx);
      entries := entries + [Derive(q, idx, gameAns)];
      idx := idx + 1;
    }
    assert DeriveAll(questions, gameAns)[..idx] == DeriveAll(questions, gameAns);
  }

  /** The entries of the first `idx + 1` questions are those of the first
      `idx` followed by that of question `idx`. */
  lemma EntriesStep(questions: seq<Question>, gameAns: seq<string>, idx: nat)
    requires idx < |questions|
    ensures DeriveAll(questions, gameAns)[..idx + 1]
            == DeriveAll(questions, gameAns)[..idx] + [Derive(questions[idx], idx, gameAns)]
  {
    var all := DeriveAll(questions, gameAns);
    assert all[..idx + 1] == all[..idx] + [all[idx]];
  }

  // ---------------------------------------------------------------------
  // showAll (ioe.js:208-222)

  /** The question with the list `showAll` reads replaced by its sorted
      copy, as the in-place `sort` leaves it. When none of the three lists
      is present the sort acts on a fresh `[]` and the question is kept. */
  function SortedInPlace(q: Question): (q': Question)
    ensures q'.qtype == q.qtype && q'.description == q.description && q'.content == q.content
    ensures AnswerList(q') == SortByOrder(AnswerList(q))
    ensures q.ans.Some? ==> q'.ans.Some? && q'.tans == q.tans && q'.tansDB == q.tansDB
    ensures q.ans.None? && q.tans.Some? ==> q'.ans == q.ans && q'.tans.Some? && q'.tansDB == q.tansDB
    ensures q.ans.None? && q.tans.None? ==> q'.ans == q.ans && q'.tans == q.tans
    ensures q.ans.None? && q.tans.None? && q.tansDB.None? ==> q' == q
  {
    if q.ans.Some? then q.(ans := Some(SortByOrder(q.ans.value)))
    else if q.tans.Some? then q.(tans := Some(SortByOrder(q.tans.value)))
    else if q.tansDB.Some? then q.(tansDB := Some(SortByOrder(q.tansDB.value)))
    else q
  }

  /** The line `showAll` shows for question `idx`: the listed answer, or
      the transcribe prompt when there is none, after a headphone mark for
      listening questions. Unlike the question loop, every type takes part
      and no type-specific default is used. */
  function ShowAllLine(q: Question, idx: nat, gameAns: seq<string>): (line: string)
    ensures var head := "Câu " + NatToString(idx + 1) + ": ";
      var listed := ListedAnswer(q, idx, gameAns);
      var shown := if listed != "" then listed else TranscribeHint(idx);
      && |line| == |head| + (if q.qtype == 4 then 2 else 0) + |shown|
      && line[..|head|] == head
      && line[|line| - |shown|..] == shown
  {
    var listed := ListedAnswer(q, idx, gameAns);
    var head := "Câu " + NatToString(idx + 1) + ": ";
    var mark := if q.qtype == 4 then "\U{1F3A7} " else "";
    var shown := if listed != "" then listed else TranscribeHint(idx);
    assert (head + mark + shown)[..|head|] == head;
    assert (head + mark + shown)[|head| + |mark|..] == shown;
    head + mark + shown
  }

  /** `showAll` and the question loop agree on the answer of a question
      of types 1 to 4 that has one; a listening question without one shows
      the bare prompt where the loop shows it after "Gõ: ". */
  lemma ShowAllAgreesWithDerive(q: Question, idx: nat, gameAns: seq<string>)
    ensures var line, e := ShowAllLine(q, idx, gameAns), Derive(q, idx, gameAns);
      && (1 <= q.qtype <= 4 && ListedAnswer(q, idx, gameAns) != "" ==>
            |line| >= |e.answer| && line[|line| - |e.answer|..] == e.answer)
      && (q.qtype == 4 && ListedAnswer(q, idx, gameAns) == "" ==>
            e.answer == "Gõ: " + line[|line| - |TranscribeHint(idx)|..])
  {
    DeriveCases(q, idx, gameAns);
  }

  /** The in-place sort changes no derived text: neither the question loop's
      entry nor the `showAll` line of a question. */
  lemma SortedInPlaceInvisible(q: Question, idx: nat, gameAns: seq<string>)
    ensures ListedAnswer(SortedInPlace(q), idx, gameAns) == ListedAnswer(q, idx, gameAns)
    ensures Derive(SortedInPlace(q), idx, gameAns) == Derive(q, idx, gameAns)
    ensures ShowAllLine(SortedInPlace(q), idx, gameAns) == ShowAllLine(q, idx, gameAns)
  {
    SortIdempotent(AnswerList(q));
  }

  /** `showAll()`: one line per question, sorting each question's own list
      in place on the way. */
  method ShowAll(questions: array<Question>, gameAns: seq<string>) returns (lines: seq<string>)
    modifies questions
    ensures |lines| == questions.Length
    ensures forall i :: 0 <= i < questions.Length ==>
              questions[i] == SortedInPlace(old(questions[i]))
              && lines[i] == ShowAllLine(old(questions[i]), i, gameAns)
  {
    ghost var orig := questions[..];
    lines := [];
    for idx := 0 to questions.Length
      invariant |lines| == idx
      invariant forall i :: 0 <= i < idx ==> questions[i] == SortedInPlace(orig[i])
      invariant forall i :: 0 <= i < idx ==> lines[i] == ShowAllLine(orig[i], i, gameAns)
      invariant forall i :: idx <= i < questions.Length ==> questions[i] == orig[i]
    {
      var line := ShowOne(questions, idx, gameAns);
      lines := lines + [line];
    }
  }

  /** One turn of the `forEach` in `showAll`: sort question `idx`'s list in
      place and give its line. */
  method ShowOne(questions: array<Question>, idx: nat, gameAns: seq<string>) returns (line: string)
    requires idx < questions.Length
    modifies questions
    ensures questions[idx] == SortedInPlace(old(questions[idx]))
    ensures forall i :: 0 <= i < questions.Length && i != idx ==> questions[i] == old(questions[i])
    ensures line == ShowAllLine(old(questions[idx]), idx, gameAns)
  {
    var q := questions[idx];
    line := ShowAllLine(q, idx, gameAns);
    questions[idx] := SortedInPlace(q);
  }

  /** Calling `showAll` twice shows the same lines both times. */
  lemma ShowAllRepeatable(q: Question, idx: nat, gameAns: seq<string>)
    ensures ShowAllLine(SortedInPlace(SortedInPlace(q)), idx, gameAns) == ShowAllLine(q, idx, gameAns)
  {
    SortedInPlaceInvisible(q, idx, gameAns);
    SortedInPlaceInvisible(SortedInPlace(q), idx, gameAns);
  }
}
