// Failure classes, and the wait reference a parked failure is named by.
module Classify {
  import opened Prelude

  datatype Class = Code | Science | Budget | Infra | Unknown

  // A normalized scheduler state; Other is any word not listed, Missing no answer at all.
  datatype JobState = COMPLETED | FAILED | TIMEOUT | OUT_OF_MEMORY | NODE_FAIL | CANCELLED | BOOT_FAIL | DEADLINE
                    | PREEMPTED | Other | Missing

  const TERMINAL_STATES := {COMPLETED, FAILED, TIMEOUT, OUT_OF_MEMORY, NODE_FAIL, CANCELLED, BOOT_FAIL, DEADLINE}
  const INFRA_STATES := {NODE_FAIL, BOOT_FAIL, PREEMPTED}

  // `unusable`: a reason says that the output is not a product of this run at all.
  datatype Verdict = Verdict(ok: bool, unusable: bool)

  // None: not a failure.
  function FailureClass(state: JobState, verdict: Option<Verdict>, outputPresent: bool, badExit: bool): Option<Class> {
    if state == Missing then Some(Unknown)
    else if state in INFRA_STATES then Some(Infra)
    else if state == TIMEOUT then Some(Budget)
    else if state in {FAILED, OUT_OF_MEMORY, CANCELLED, DEADLINE} then Some(Code)
    else if state == COMPLETED then
      if badExit || !outputPresent then Some(Code)
      else if verdict.Some? && !verdict.value.ok then Some(if verdict.value.unusable then Code else Science)
      else None
    else Some(Unknown)
  }

  // max_auto when the steps table does not say otherwise
  function DefaultRetries(c: Class): nat {
    if c == Infra then 1 else 0
  }

  // ------------------------------------------------------------ ruling names

  predicate Allowed(c: char) {
    'A' <= c <= 'Z' || 'a' <= c <= 'z' || '0' <= c <= '9' || c in {'_', '.', '-'}
  }

  // Letters, digits, underscore, dot and dash.
  lemma AllowedIs(c: char)
    ensures var n := c as int;
            Allowed(c) <==> n == 45 || n == 46 || n == 95 || 48 <= n <= 57 || 65 <= n <= 90 || 97 <= n <= 122
  {
  }

  // re.sub(r"[^A-Za-z0-9_.-]+", "-", text)
  function Dashed(text: string, inRun: bool): string {
    if text == "" then ""
    else if Allowed(text[0]) then [text[0]] + Dashed(text[1..], false)
    else (if inRun then "" else "-") + Dashed(text[1..], true)
  }

  function StripLeft(text: string): string {
    if text != "" && text[0] == '-' then StripLeft(text[1..]) else text
  }

  function StripRight(text: string): string {
    if text != "" && text[|text| - 1] == '-' then StripRight(text[..|text| - 1]) else text
  }

  function Sanitize(text: string): string {
    var s := StripRight(StripLeft(Dashed(text, false)));
    if s == "" then "x" else s
  }

  function ClassName(c: Class): string {
    match c
    case Code => "code"
    case Science => "science"
    case Budget => "budget"
    case Infra => "infra"
    case Unknown => "unknown"
  }

  // An empty task id counts as none.
  function TaskPrefix(task: Option<string>): string {
    if task.Some? && task.value != "" then Sanitize(task.value) else "task"
  }

  function Tail(step: string, attempt: string): string {
    Sanitize(step) + "-" + if |attempt| > 8 then attempt[..8] else attempt
  }

  function RulingName(task: Option<string>, c: Class, step: string, attempt: string): string {
    "ruling:" + (TaskPrefix(task) + "-" + (ClassName(c) + "-" + Tail(step, attempt)))
  }

  // `cls` is None for the class "owner".
  datatype Ruling = Ruling(cls: Option<Class>, ownerOnly: bool)

  function Head(s: string): string {
    if s == "" || s[0] == '-' then "" else [s[0]] + Head(s[1..])
  }

  function ClassOf(head: string): Class {
    if head == "code" then Code else if head == "science" then Science else if head == "budget" then Budget
    else if head == "infra" then Infra else Unknown
  }

  function ParseName(name: string, prefix: string): Ruling {
    if "owner" <= name then Ruling(None, true)
    else if !(prefix + "-" <= name) then Ruling(Some(Unknown), true)
    else
      var c := ClassOf(Head(name[|prefix| + 1..]));
      Ruling(Some(c), c != Code)
  }

  function ParseRuling(waitingOn: string, task: Option<string>): Option<Ruling> {
    if "ruling:" <= waitingOn then Some(ParseName(waitingOn[|"ruling:"|..], TaskPrefix(task))) else None
  }

  lemma {:induction false} HeadStopsAtDash(a: string, rest: string)
    requires '-' !in a
    ensures Head(a + "-" + rest) == a
  {
    if a == "" {
      assert a + "-" + rest == "-" + rest;
    } else {
      assert (a + "-" + rest)[1..] == a[1..] + "-" + rest;
      HeadStopsAtDash(a[1..], rest);
      assert [a[0]] + a[1..] == a;
    }
  }

  // "owner" contains no dash, so only the prefix itself can begin with it.
  lemma OwnerIsInThePrefix(prefix: string, rest: string)
    ensures "owner" <= prefix + "-" + rest <==> "owner" <= prefix
  {
    var name := prefix + "-" + rest;
    if |prefix| < 5 {
      assert name[|prefix|] == '-' != "owner"[|prefix|];
    } else {
      assert name[..5] == prefix[..5];
    }
  }

  lemma ParseOfName(prefix: string, c: Class, tail: string)
    ensures var r := ParseName(prefix + "-" + (ClassName(c) + "-" + tail), prefix);
            && (r.cls == Some(c) <==> !("owner" <= prefix))
            && (!r.ownerOnly <==> c == Code && !("owner" <= prefix))
  {
    var rest := ClassName(c) + "-" + tail;
    var name := prefix + "-" + rest;
    OwnerIsInThePrefix(prefix, rest);
    assert prefix + "-" <= name && name[|prefix| + 1..] == rest;
    HeadStopsAtDash(ClassName(c), tail);
  }

  lemma ParseOfRuling(name: string, task: Option<string>)
    ensures ParseRuling("ruling:" + name, task) == Some(ParseName(name, TaskPrefix(task)))
  {
    var whole := "ruling:" + name;
    assert whole[|"ruling:"|..] == name;
  }

  // parse_ruling undoes ruling_name exactly when the sanitized task id does not begin with
  // "owner"; and whatever the task id, only a code failure can come out master-resolvable.
  lemma ParseUndoesName(task: Option<string>, c: Class, step: string, attempt: string)
    ensures var r := ParseRuling(RulingName(task, c, step, attempt), task);
            && r.Some?
            && (r.value.cls == Some(c) <==> !("owner" <= TaskPrefix(task)))
            && (!r.value.ownerOnly <==> c == Code && !("owner" <= TaskPrefix(task)))
  {
    ParseOfRuling(TaskPrefix(task) + "-" + (ClassName(c) + "-" + Tail(step, attempt)), task);
    ParseOfName(TaskPrefix(task), c, Tail(step, attempt));
  }

  lemma {:induction false} DashedIsAllowed(text: string, inRun: bool)
    ensures forall c <- Dashed(text, inRun) :: Allowed(c)
  {
    if text != "" {
      DashedIsAllowed(text[1..], !Allowed(text[0]));
    }
  }

  lemma {:induction false} StripKeeps(text: string)
    ensures forall c <- StripLeft(text) :: c in text
    ensures forall c <- StripRight(text) :: c in text
    ensures StripLeft(text) != "" ==> StripLeft(text)[0] != '-'
    decreases |text|
  {
    if text != "" && text[0] == '-' {
      StripKeeps(text[1..]);
    }
    if text != "" && text[|text| - 1] == '-' {
      StripKeeps(text[..|text| - 1]);
    }
  }

  // A name part is never empty and uses only the characters a wait reference may have.
  lemma SanitizedIsClean(text: string)
    ensures Sanitize(text) != "" && forall c <- Sanitize(text) :: Allowed(c)
  {
    DashedIsAllowed(text, false);
    StripKeeps(Dashed(text, false));
    StripKeeps(StripLeft(Dashed(text, false)));
  }

  // ------------------------------------------------------------ what a name part keeps

  predicate AllAllowed(text: string) {
    forall c <- text :: Allowed(c)
  }

  predicate NoneAllowed(text: string) {
    forall c <- text :: !Allowed(c)
  }

  // What text[k..] looks like does not depend on the run before it once it starts with a
  // character that stays.
  lemma {:induction false} DashedRun(run: string, rest: string, inRun: bool)
    requires NoneAllowed(run) && (rest == "" || Allowed(rest[0]))
    ensures Dashed(run + rest, inRun) == (if run == "" || inRun then "" else "-") + Dashed(rest, false)
    decreases |run|
  {
    if run == "" {
      assert run + rest == rest;
    } else {
      assert (run + rest)[1..] == run[1..] + rest;
      DashedRun(run[1..], rest, true);
    }
  }

  // Characters that stay are copied; a whole run of others becomes one dash.
  lemma {:induction false} DashedCopies(word: string, rest: string)
    requires AllAllowed(word) && word != ""
    ensures Dashed(word + rest, false) == word + Dashed(rest, false)
  {
    assert (word + rest)[1..] == word[1..] + rest;
    if |word| == 1 {
      assert word[1..] + rest == rest && [word[0]] == word;
    } else {
      DashedCopies(word[1..], rest);
      assert [word[0]] + (word[1..] + Dashed(rest, false)) == word + Dashed(rest, false);
    }
  }

  lemma StripsDash(text: string)
    requires text != "" && text[0] != '-' && text[|text| - 1] != '-'
    ensures StripLeft("-" + text) == text && StripRight(text + "-") == text
  {
    assert ("-" + text)[1..] == text && (text + "-")[..|text|] == text;
  }

  predicate Word(text: string) {
    text != "" && AllAllowed(text) && text[0] != '-' && text[|text| - 1] != '-'
  }

  lemma Framed(before: string, mid: string, after: string, kept: string)
    requires NoneAllowed(before) && NoneAllowed(after) && mid != "" && Allowed(mid[0])
    requires Dashed(mid + after, false) == kept + Dashed(after, false)
    requires kept != "" && kept[0] != '-' && kept[|kept| - 1] != '-'
    ensures Sanitize(before + (mid + after)) == kept
  {
    var lead, trail := if before == "" then "" else "-", if after == "" then "" else "-";
    assert Dashed(after, false) == trail by {
      DashedRun(after, "", false);
      assert after + "" == after;
    }
    assert Dashed(before + (mid + after), false) == lead + (kept + trail) by {
      DashedRun(before, mid + after, false);
    }
    Stripped(before == "", kept, after == "");
  }

  lemma Stripped(noneBefore: bool, text: string, noneAfter: bool)
    requires text != "" && text[0] != '-' && text[|text| - 1] != '-'
    ensures StripRight(StripLeft((if noneBefore then "" else "-") + (text + if noneAfter then "" else "-"))) == text
  {
    var rest := text + if noneAfter then "" else "-";
    assert noneAfter ==> rest == text;
    assert noneBefore ==> "" + rest == rest;
    assert ("-" + rest)[1..] == rest;
    StripsDash(text);
  }

  // A clean name part stays as it is, and what cannot stand in one is dropped at either end;
  // where nothing is left the part is "x".
  lemma SanitizeKeepsAWord(before: string, word: string, after: string)
    requires Word(word) && NoneAllowed(before) && NoneAllowed(after)
    ensures Sanitize(before + (word + after)) == word && Sanitize(word) == word && Sanitize(before) == "x"
  {
    DashedCopies(word, after);
    Framed(before, word, after, word);
    SanitizesToItself(word);
    SanitizesToNothing(before);
  }

  lemma SanitizesToItself(word: string)
    requires Word(word)
    ensures Sanitize(word) == word
  {
    DashedCopies(word, "");
    assert word + "" == word;
    Framed("", word, "", word);
    assert "" + word == word;
  }

  lemma SanitizesToNothing(run: string)
    requires NoneAllowed(run)
    ensures Sanitize(run) == "x"
  {
    DashedRun(run, "", false);
    assert run + "" == run;
    assert StripLeft("-") == "";
  }

  // Between two clean parts it becomes one dash, however long it is.
  lemma SanitizeJoinsWords(before: string, a: string, between: string, b: string, after: string)
    requires Word(a) && Word(b) && NoneAllowed(before) && NoneAllowed(between) && NoneAllowed(after) && between != ""
    ensures Sanitize(before + ((a + (between + b)) + after)) == a + ("-" + b)
  {
    var mid, kept := a + (between + b), a + ("-" + b);
    DashedCopies(b, after);
    DashedRun(between, b + after, false);
    DashedCopies(a, between + (b + after));
    assert mid + after == a + (between + (b + after));
    assert a + ("-" + (b + Dashed(after, false))) == kept + Dashed(after, false);
    assert kept[|kept| - 1] == b[|b| - 1];
    Framed(before, mid, after, kept);
  }

  // ------------------------------------------------------------ who may resolve a park

  function Cut(attempt: string): string {
    if |attempt| > 8 then attempt[..8] else attempt
  }

  lemma CutsLast(head: string, a: string, b: string, c: string, last: string)
    ensures var name := head + (a + "-" + (b + "-" + (c + "-" + last)));
            |name| >= |head| + |a| + |b| + |c| + 3 && name[|head| + |a| + |b| + |c| + 3..] == last
  {
  }

  // The name of a park as it reads for a clean task id and step: the task's id, or "task"
  // where there is none, then the class, the step and the beginning of the attempt id.
  lemma RulingReads(task: string, c: Class, step: string, attempt: string)
    requires Word(step) && (task == "" || Word(task))
    ensures var word := match c case Code => "code" case Science => "science" case Budget => "budget" case Infra => "infra"
                                case Unknown => "unknown";
            var rest := word + "-" + (step + "-" + Cut(attempt));
            && RulingName(Some(task), c, step, attempt) == "ruling:" + ((if task == "" then "task" else task) + "-" + rest)
            && RulingName(None, c, step, attempt) == "ruling:" + ("task" + "-" + rest)
  {
    SanitizesToItself(step);
    if task != "" {
      SanitizesToItself(task);
    }
  }

  // The first eight characters of the attempt id tell the rulings of one step apart.
  lemma RulingsDiffer(task: Option<string>, c: Class, step: string, a: string, b: string)
    ensures RulingName(task, c, step, a) == RulingName(task, c, step, b) <==> Cut(a) == Cut(b)
  {
    CutsLast("ruling:", TaskPrefix(task), ClassName(c), Sanitize(step), Cut(a));
    CutsLast("ruling:", TaskPrefix(task), ClassName(c), Sanitize(step), Cut(b));
  }

  lemma {:induction false} HeadIs(s: string, word: string)
    requires '-' !in word
    ensures Head(s) == word <==> s == word || word + "-" <= s
  {
    if s == "" || s[0] == '-' {
      if word == "" && s != "" {
        assert word + "-" == "-" && s[..1] == "-";
      }
    } else if word != "" {
      HeadIs(s[1..], word[1..]);
      assert word == [word[0]] + word[1..] && s == [s[0]] + s[1..];
      assert word + "-" == [word[0]] + (word[1..] + "-");
      if s[0] == word[0] && word[1..] + "-" <= s[1..] {
        assert word + "-" <= s;
      }
      if word + "-" <= s {
        assert word[1..] + "-" <= s[1..];
      }
    }
  }

  lemma ResolvableName(name: string, prefix: string)
    ensures !ParseName(name, prefix).ownerOnly <==>
              !("owner" <= prefix) && prefix + "-" <= name
              && (name[|prefix| + 1..] == "code" || "code-" <= name[|prefix| + 1..])
  {
    if prefix + "-" <= name {
      var rest := name[|prefix| + 1..];
      assert name == prefix + "-" + rest;
      OwnerIsInThePrefix(prefix, rest);
      HeadIs(rest, "code");
    }
  }

  // Whatever a task waits on, the master alone may resolve it only if it names a code failure
  // of this very task; and nothing of a task whose id reads like "owner".
  lemma MasterMayResolve(waitingOn: string, task: Option<string>)
    ensures var r, code := ParseRuling(waitingOn, task), "ruling:" + (TaskPrefix(task) + "-code");
            && (r.None? <==> !("ruling:" <= waitingOn))
            && (r.Some? && !r.value.ownerOnly <==>
                  !("owner" <= TaskPrefix(task)) && (waitingOn == code || code + "-" <= waitingOn))
  {
    var prefix := TaskPrefix(task);
    var code := "ruling:" + (prefix + "-code");
    if "ruling:" <= waitingOn {
      var name := waitingOn[|"ruling:"|..];
      assert waitingOn == "ruling:" + name;
      ResolvableName(name, prefix);
      CodeOf(name, prefix);
      assert waitingOn == code <==> name == prefix + "-code" by {
        assert code[|"ruling:"|..] == prefix + "-code";
      }
      assert code + "-" == "ruling:" + (prefix + "-code-");
      assert code + "-" <= waitingOn <==> prefix + "-code-" <= name by {
        Cancel("ruling:", prefix + "-code-", name);
      }
    } else {
      assert code[..|"ruling:"|] == "ruling:";
    }
  }

  lemma Cancel(a: string, b: string, c: string)
    ensures a + b <= a + c <==> b <= c
  {
    if a + b <= a + c {
      assert (a + c)[..|a + b|] == a + b;
      assert c[..|b|] == (a + c)[|a|..|a + b|] == b;
    }
  }

  lemma CodeOf(name: string, prefix: string)
    ensures name == prefix + "-code" <==> prefix + "-" <= name && name[|prefix| + 1..] == "code"
    ensures prefix + "-code-" <= name <==> prefix + "-" <= name && "code-" <= name[|prefix| + 1..]
  {
    assert prefix + "-code" == prefix + "-" + "code" && prefix + "-code-" == prefix + "-" + "code-";
    if prefix + "-" <= name {
      assert name == prefix + "-" + name[|prefix| + 1..];
      assert (prefix + "-" + "code")[|prefix| + 1..] == "code";
      Cancel(prefix + "-", "code-", name[|prefix| + 1..]);
    }
  }
}
