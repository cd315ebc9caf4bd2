/** The console theme: a prompt that reads a command, a fixed table of eight
    commands that render parts of the CV as lines of text, and the session
    state (the lines shown so far and the command being typed). */
module ConsoleCv {
  import opened CvTypes
  import opened Text

  /** The prompt echoed before each command, `${user}@${host}:~$ `. */
  function PromptLine(command: string): (r: string)
    ensures |r| == 18 + |command| && r[..18] == "visitor@cv.dev:~$ " && r[18..] == command
  {
    "visitor@cv.dev:~$ " + command
  }

  /** The three lines a new session shows. */
  function WelcomeLines(cv: CV): (r: seq<string>)
    ensures |r| == 3 && r[2] == ""
    ensures r[0] == "Bienvenido al CV interactivo de " + cv.basics.name
  {
    [ "Bienvenido al CV interactivo de " + cv.basics.name,
      "Escribe 'help' para ver los comandos disponibles",
      "" ]
  }

  /** The names the command table answers to. */
  const CommandNames: seq<string> := ["help", "info", "exp", "edu", "skills", "langs", "clear", "all"]

  const HelpLines: seq<string> := [
    "Comandos disponibles:",
    "  info      - Muestra información personal",
    "  exp       - Muestra experiencia laboral",
    "  edu       - Muestra educación",
    "  skills    - Muestra habilidades",
    "  langs     - Muestra idiomas",
    "  clear     - Limpia la pantalla",
    "  all       - Muestra todo el CV",
    ""
  ]

  const NotRecognized: seq<string> := ["Comando no reconocido. Escribe 'help' para ver los comandos disponibles", ""]

  /** One line per profile, `  network: url`. */
  function ProfileLines(ps: seq<Profile>): (r: seq<string>)
    ensures |r| == |ps|
    ensures forall i :: 0 <= i < |ps| ==> r[i] == "  " + ps[i].network + ": " + ps[i].url
  {
    seq(|ps|, i requires 0 <= i < |ps| => "  " + ps[i].network + ": " + ps[i].url)
  }

  /** `info`: name, title, e-mail, summary, location, a blank line, the
      profiles under a heading, and a closing blank line. */
  function InfoLines(cv: CV): (r: seq<string>)
    ensures |r| == 8 + |cv.basics.profiles|
    ensures r[0] == cv.basics.name && r[4] == "Location: " + cv.basics.location.city + ", " + cv.basics.location.country
    ensures r[7..|r| - 1] == ProfileLines(cv.basics.profiles) && r[|r| - 1] == ""
  {
    var b := cv.basics;
    var r := [b.name, b.labelText, b.email, b.summary,
              "Location: " + b.location.city + ", " + b.location.country, "", "Perfiles:"]
             + ProfileLines(b.profiles) + [""];
    assert r[7..|r| - 1] == ProfileLines(b.profiles);
    r
  }

  /** `endDate || 'Presente'`: an absent or empty end date reads as
      ongoing. */
  function EndLabel(endDate: Option<string>): (r: string)
    ensures endDate.None? || endDate == Some("") ==> r == "Presente"
    ensures endDate.Some? && endDate.value != "" ==> r == endDate.value
  {
    if endDate.Some? && endDate.value != "" then endDate.value else "Presente"
  }

  function HighlightLines(hs: seq<string>): (r: seq<string>)
    ensures |r| == |hs|
    ensures forall i :: 0 <= i < |hs| ==> r[i] == "  - " + hs[i]
  {
    seq(|hs|, i requires 0 <= i < |hs| => "  - " + hs[i])
  }

  /** The three lines that open a job's entry. */
  function JobHead(job: Work): seq<string> {
    [ job.company + " (" + job.startDate + " - " + EndLabel(job.endDate) + ")",
      "Role: " + job.position,
      job.summary ]
  }

  /** A job's entry: heading, role, summary, one line per highlight and a
      blank line, so four lines more than it has highlights. */
  function JobLines(job: Work): (r: seq<string>)
    ensures |r| == 4 + |job.highlights|
    ensures r[..3] == JobHead(job) && r[3..|r| - 1] == HighlightLines(job.highlights) && r[|r| - 1] == ""
  {
    var r := JobHead(job) + HighlightLines(job.highlights) + [""];
    assert r[3..|r| - 1] == HighlightLines(job.highlights);
    r
  }

  /** The number of highlights over all jobs. */
  function HighlightCount(ws: seq<Work>): nat {
    if ws == [] then 0 else HighlightCount(ws[..|ws| - 1]) + |ws[|ws| - 1].highlights|
  }

  /** `exp`: the entries of the jobs in order, four lines per job plus one
      per highlight. */
  function ExpLines(ws: seq<Work>): (r: seq<string>)
    ensures |r| == 4 * |ws| + HighlightCount(ws)
  {
    if ws == [] then [] else ExpLines(ws[..|ws| - 1]) + JobLines(ws[|ws| - 1])
  }

  /** The `exp` command as written: push each job's lines in turn. */
  method Exp(work: seq<Work>) returns (out: seq<string>)
    ensures out == ExpLines(work)
  {
    out := [];
    var i := 0;
    while i < |work|
      invariant 0 <= i <= |work|
      invariant out == ExpLines(work[..i])
    {
      out := PushJob(out, work[i]);
      ExpLinesSnoc(work, i);
      i := i + 1;
    }
    assert work[..i] == work;
  }


  /** The inner loop of `exp`: one line per highlight, in order. */
  method PushHighlights(start: seq<string>, hs: seq<string>) returns (out: seq<string>)
    ensures out == start + HighlightLines(hs)
  {
    out := start;
    var k := 0;
    while k < |hs|
      invariant 0 <= k <= |hs|
      invariant out == start + HighlightLines(hs[..k])
    {
      HighlightLinesSnoc(hs, k);
      out := out + ["  - " + hs[k]];
      k := k + 1;
    }
    assert hs[..k] == hs;
  }

  /** The body of the `exp` loop: one job's head, highlights and blank
      line. */
  method PushJob(start: seq<string>, job: Work) returns (out: seq<string>)
    ensures out == start + JobLines(job)
  {
    out := start;
    out := out + [job.company + " (" + job.startDate + " - " + EndLabel(job.endDate) + ")"];
    out := out + ["Role: " + job.position];
    out := out + [job.summary];
    PushThree(start, JobHead(job));
    out := PushHighlights(out, job.highlights);
    out := out + [""];
    JobLinesParts(start, job);
  }

  lemma JobLinesParts(start: seq<string>, job: Work)
    ensures start + JobHead(job) + HighlightLines(job.highlights) + [""] == start + JobLines(job)
  {
    assert JobLines(job) == JobHead(job) + HighlightLines(job.highlights) + [""];
  }

  lemma PushThree(before: seq<string>, head: seq<string>)
    requires |head| == 3
    ensures before + [head[0]] + [head[1]] + [head[2]] == before + head
  {
    assert head == [head[0]] + [head[1]] + [head[2]];
  }

  lemma HighlightLinesSnoc(hs: seq<string>, k: nat)
    requires k < |hs|
    ensures HighlightLines(hs[..k + 1]) == HighlightLines(hs[..k]) + ["  - " + hs[k]]
  {
  }

  lemma ExpLinesSnoc(ws: seq<Work>, i: nat)
    requires i < |ws|
    ensures ExpLines(ws[..i + 1]) == ExpLines(ws[..i]) + JobLines(ws[i])
  {
    assert ws[..i + 1][..i] == ws[..i];
  }

  /** An education entry: institution, degree in area, dates, blank. */
  function EduEntryLines(e: Education): (r: seq<string>)
    ensures |r| == 4 && r[3] == ""
    ensures r[2] == e.startDate + " - " + EndLabel(e.endDate)
  {
    [e.institution, e.studyType + " en " + e.area, e.startDate + " - " + EndLabel(e.endDate), ""]
  }

  /** `edu`: four lines per education entry. */
  function EduLines(es: seq<Education>): (r: seq<string>)
    ensures |r| == 4 * |es|
  {
    if es == [] then [] else EduLines(es[..|es| - 1]) + EduEntryLines(es[|es| - 1])
  }

  /** The `edu` command as written. */
  method Edu(education: seq<Education>) returns (out: seq<string>)
    ensures out == EduLines(education)
  {
    out := [];
    var i := 0;
    while i < |education|
      invariant 0 <= i <= |education|
      invariant out == EduLines(education[..i])
    {
      var e := education[i];
      out := out + [e.institution];
      out := out + [e.studyType + " en " + e.area];
      out := out + [e.startDate + " - " + EndLabel(e.endDate)];
      out := out + [""];
      assert education[..i + 1][..i] == education[..i];
      i := i + 1;
    }
    assert education[..i] == education;
  }

  /** A skill entry: name and level, the keywords joined by ", ", blank. */
  function SkillEntryLines(s: Skill): (r: seq<string>)
    ensures |r| == 3 && r[2] == ""
    ensures r[1] == "  Keywords: " + Join(s.keywords, ", ")
  {
    [s.name + " (" + s.level + ")", "  Keywords: " + Join(s.keywords, ", "), ""]
  }

  /** `skills`: three lines per skill. */
  function SkillsLines(ss: seq<Skill>): (r: seq<string>)
    ensures |r| == 3 * |ss|
  {
    if ss == [] then [] else SkillsLines(ss[..|ss| - 1]) + SkillEntryLines(ss[|ss| - 1])
  }

  /** The `skills` command as written. */
  method Skills(skills: seq<Skill>) returns (out: seq<string>)
    ensures out == SkillsLines(skills)
  {
    out := [];
    var i := 0;
    while i < |skills|
      invariant 0 <= i <= |skills|
      invariant out == SkillsLines(skills[..i])
    {
      var s := skills[i];
      out := out + [s.name + " (" + s.level + ")"];
      out := out + ["  Keywords: " + Join(s.keywords, ", ")];
      out := out + [""];
      assert skills[..i + 1][..i] == skills[..i];
      i := i + 1;
    }
    assert skills[..i] == skills;
  }

  /** `langs`: one line per language, then one blank line. */
  function LangsLines(ls: seq<Language>): (r: seq<string>)
    ensures |r| == |ls| + 1 && r[|ls|] == ""
    ensures forall i :: 0 <= i < |ls| ==> r[i] == ls[i].language + ": " + ls[i].fluency
  {
    seq(|ls|, i requires 0 <= i < |ls| => ls[i].language + ": " + ls[i].fluency) + [""]
  }

  /** The `langs` command as written. */
  method Langs(languages: seq<Language>) returns (out: seq<string>)
    ensures out == LangsLines(languages)
  {
    out := [];
    var i := 0;
    while i < |languages|
      invariant 0 <= i <= |languages|
      invariant |out| == i
      invariant forall j :: 0 <= j < i ==> out[j] == languages[j].language + ": " + languages[j].fluency
    {
      out := out + [languages[i].language + ": " + languages[i].fluency];
      i := i + 1;
    }
    out := out + [""];
  }

  /** `all`: the info lines, then each of the other four listings under a
      heading and a rule. */
  function AllLines(cv: CV): (r: seq<string>)
    ensures |r| == |InfoLines(cv)| + 8 + |ExpLines(cv.work)| + |EduLines(cv.education)|
                   + |SkillsLines(cv.skills)| + |LangsLines(cv.languages)|
    ensures r[..|InfoLines(cv)|] == InfoLines(cv)
    ensures r[|InfoLines(cv)|] == "EXPERIENCIA LABORAL" && r[|InfoLines(cv)| + 1] == "----------------"
    ensures r[|r| - |LangsLines(cv.languages)|..] == LangsLines(cv.languages)
  {
    var info := InfoLines(cv);
    var langs := LangsLines(cv.languages);
    var middle := ["EXPERIENCIA LABORAL", "----------------"] + ExpLines(cv.work)
      + ["EDUCACIÓN", "----------------"] + EduLines(cv.education)
      + ["HABILIDADES", "----------------"] + SkillsLines(cv.skills)
      + ["IDIOMAS", "----------------"];
    Framed(info, middle, langs);
    info + middle + langs
  }

  /** `all` is the other four listings, each under its heading and a rule,
      after the `info` lines. */
  lemma AllIsTheOtherCommands(cv: CV)
    ensures AllLines(cv) ==
              CommandOutput(cv, "info").value
              + ["EXPERIENCIA LABORAL", "----------------"] + CommandOutput(cv, "exp").value
              + ["EDUCACIÓN", "----------------"] + CommandOutput(cv, "edu").value
              + ["HABILIDADES", "----------------"] + CommandOutput(cv, "skills").value
              + ["IDIOMAS", "----------------"] + CommandOutput(cv, "langs").value
  {
    assert CommandOutput(cv, "info").value == InfoLines(cv);
    assert CommandOutput(cv, "exp").value == ExpLines(cv.work);
    assert CommandOutput(cv, "edu").value == EduLines(cv.education);
    assert CommandOutput(cv, "skills").value == SkillsLines(cv.skills);
    assert CommandOutput(cv, "langs").value == LangsLines(cv.languages);
    AllLinesUnfold(cv);
  }

  lemma AllLinesUnfold(cv: CV)
    ensures AllLines(cv) ==
              InfoLines(cv)
              + ["EXPERIENCIA LABORAL", "----------------"] + ExpLines(cv.work)
              + ["EDUCACIÓN", "----------------"] + EduLines(cv.education)
              + ["HABILIDADES", "----------------"] + SkillsLines(cv.skills)
              + ["IDIOMAS", "----------------"] + LangsLines(cv.languages)
  {
    Regroup(InfoLines(cv), ["EXPERIENCIA LABORAL", "----------------"], ExpLines(cv.work),
            ["EDUCACIÓN", "----------------"], EduLines(cv.education),
            ["HABILIDADES", "----------------"], SkillsLines(cv.skills),
            ["IDIOMAS", "----------------"], LangsLines(cv.languages));
  }

  lemma Regroup(a: seq<string>, b: seq<string>, c: seq<string>, d: seq<string>, e: seq<string>,
                f: seq<string>, g: seq<string>, h: seq<string>, i: seq<string>)
    ensures a + (b + c + d + e + f + g + h) + i == a + b + c + d + e + f + g + h + i
  {
  }

  /** Where the three parts of a concatenation sit in it. */
  lemma Framed(a: seq<string>, m: seq<string>, b: seq<string>)
    ensures |a + m + b| == |a| + |m| + |b|
    ensures (a + m + b)[..|a|] == a
    ensures forall i :: 0 <= i < |m| ==> (a + m + b)[|a| + i] == m[i]
    ensures (a + m + b)[|a| + |m|..] == b
  {
  }

  /** The command table: the lines a known command prints; `None` for any
      other name. */
  function CommandOutput(cv: CV, cmd: string): (r: Option<seq<string>>)
    ensures r.Some? <==> cmd in CommandNames
    ensures cmd == "clear" ==> r == Some([])
    ensures cmd == "langs" ==> r == Some(LangsLines(cv.languages))
  {
    if cmd == "help" then Some(HelpLines)
    else if cmd == "info" then Some(InfoLines(cv))
    else if cmd == "exp" then Some(ExpLines(cv.work))
    else if cmd == "edu" then Some(EduLines(cv.education))
    else if cmd == "skills" then Some(SkillsLines(cv.skills))
    else if cmd == "langs" then Some(LangsLines(cv.languages))
    else if cmd == "clear" then Some([])
    else if cmd == "all" then Some(AllLines(cv))
    else None
  }

  /** Looks a command up and runs it, with the listings built by the loops
      above. */
  method RunCommand(cv: CV, cmd: string) returns (r: Option<seq<string>>)
    ensures r == CommandOutput(cv, cmd)
  {
    if cmd == "help" {
      r := Some(HelpLines);
    } else if cmd == "info" {
      r := Some(InfoLines(cv));
    } else if cmd == "exp" {
      var lines := Exp(cv.work);
      r := Some(lines);
    } else if cmd == "edu" {
      var lines := Edu(cv.education);
      r := Some(lines);
    } else if cmd == "skills" {
      var lines := Skills(cv.skills);
      r := Some(lines);
    } else if cmd == "langs" {
      var lines := Langs(cv.languages);
      r := Some(lines);
    } else if cmd == "clear" {
      r := Some([]);
    } else if cmd == "all" {
      r := Some(AllLines(cv));
    } else {
      r := None;
    }
  }

  /** The key the command table is searched with: the typed text in lower
      case, without surrounding whitespace. */
  function Normalize(command: string): string {
    Trim(ToLower(command))
  }

  /** What follows the echoed prompt: the command's lines, or the
      not-recognised message when there is no such command. */
  function CommandLines(cv: CV, cmd: string): (r: seq<string>)
    ensures cmd in CommandNames ==> Some(r) == CommandOutput(cv, cmd)
    ensures cmd !in CommandNames ==> r == NotRecognized
  {
    match CommandOutput(cv, cmd)
    case Some(lines) => lines
    case None => NotRecognized
  }

  /** The lines shown after Enter. `clear` in any case or padding empties
      the screen; otherwise the old lines stay as a prefix, followed by the
      prompt echoing the raw text and then the command's lines. */
  function EnterOutput(cv: CV, output: seq<string>, command: string): (r: seq<string>)
    ensures Normalize(command) == "clear" ==> r == []
    ensures Normalize(command) != "clear" ==>
              && |r| > |output| && r[..|output|] == output && r[|output|] == PromptLine(command)
              && r[|output| + 1..] == CommandLines(cv, Normalize(command))
  {
    var cmd := Normalize(command);
    var lines := CommandLines(cv, cmd);
    AppendedParts(output, PromptLine(command), lines);
    if cmd == "clear" then [] else output + [PromptLine(command)] + lines
  }

  lemma AppendedParts(output: seq<string>, line: string, lines: seq<string>)
    ensures |output + [line] + lines| > |output|
    ensures (output + [line] + lines)[..|output|] == output
    ensures (output + [line] + lines)[|output|] == line
    ensures (output + [line] + lines)[|output| + 1..] == lines
  {
  }

  /** Lower-casing works character by character. */
  lemma ToLowerAppend(a: string, b: string)
    ensures ToLower(a + b) == ToLower(a) + ToLower(b)
  {
    var l := ToLower(a + b);
    var m := ToLower(a) + ToLower(b);
    forall i | 0 <= i < |a + b|
      ensures l[i] == m[i]
    {
      if i < |a| {
        assert (a + b)[i] == a[i] && m[i] == ToLower(a)[i];
      } else {
        assert (a + b)[i] == b[i - |a|] && m[i] == ToLower(b)[i - |a|];
      }
    }
    assert l == m;
  }

  /** Lower-casing neither creates nor removes whitespace. */
  lemma LowerCharWhitespace(c: char)
    ensures IsWhitespace(LowerChar(c)) == IsWhitespace(c)
  {
  }

  /** Leading whitespace is dropped by `TrimStart`. */
  lemma {:induction false} TrimStartPadded(p: string, s: string)
    requires forall i :: 0 <= i < |p| ==> IsWhitespace(p[i])
    requires s == [] || !IsWhitespace(s[0])
    ensures TrimStart(p + s) == s
  {
    if p != [] {
      assert (p + s)[1..] == p[1..] + s;
      TrimStartPadded(p[1..], s);
    }
  }

  /** Trailing whitespace is dropped by `TrimEnd`. */
  lemma {:induction false} TrimEndPadded(s: string, q: string)
    requires forall i :: 0 <= i < |q| ==> IsWhitespace(q[i])
    requires s == [] || !IsWhitespace(s[|s| - 1])
    ensures TrimEnd(s + q) == s
  {
    if q != [] {
      var q' := q[..|q| - 1];
      assert (s + q)[..|s + q| - 1] == s + q';
      TrimEndPadded(s, q');
    }
  }

  /** A string of whitespace only trims to nothing. */
  lemma {:induction false} BlankTrimsToEmpty(w: string)
    requires forall i :: 0 <= i < |w| ==> IsWhitespace(w[i])
    ensures TrimStart(w) == []
  {
    if w != [] {
      BlankTrimsToEmpty(w[1..]);
    }
  }

  /** Lower-casing keeps whitespace whitespace. */
  lemma LowerBlank(w: string)
    requires forall i :: 0 <= i < |w| ==> IsWhitespace(w[i])
    ensures forall i :: 0 <= i < |ToLower(w)| ==> IsWhitespace(ToLower(w)[i])
  {
    forall i | 0 <= i < |ToLower(w)|
      ensures IsWhitespace(ToLower(w)[i])
    {
      LowerCharWhitespace(w[i]);
    }
  }

  lemma Regroup3(a: string, b: string, c: string)
    ensures a + b + c == a + (b + c)
  {
  }

  /** Two whitespace-only strings make a whitespace-only string. */
  lemma BlankConcat(p: string, q: string)
    requires forall i :: 0 <= i < |p| ==> IsWhitespace(p[i])
    requires forall i :: 0 <= i < |q| ==> IsWhitespace(q[i])
    ensures forall i :: 0 <= i < |p + q| ==> IsWhitespace((p + q)[i])
  {
    forall i | 0 <= i < |p + q|
      ensures IsWhitespace((p + q)[i])
    {
      if i >= |p| {
        assert (p + q)[i] == q[i - |p|];
      }
    }
  }

  /** `trim` drops whitespace padding and nothing else. */
  lemma TrimPadded(p: string, s: string, q: string)
    requires forall i :: 0 <= i < |p| ==> IsWhitespace(p[i])
    requires forall i :: 0 <= i < |q| ==> IsWhitespace(q[i])
    requires s == [] || (!IsWhitespace(s[0]) && !IsWhitespace(s[|s| - 1]))
    ensures Trim(p + s + q) == s
  {
    if s == [] {
      assert p + s + q == p + q;
      BlankConcat(p, q);
      BlankTrimsToEmpty(p + q);
    } else {
      Regroup3(p, s, q);
      assert (s + q)[0] == s[0];
      TrimStartPadded(p, s + q);
      TrimEndPadded(s, q);
    }
  }

  /** A command typed in any case and padded with whitespace is looked up
      as its lower-case, unpadded text. */
  lemma NormalizePadded(p: string, s: string, q: string)
    requires forall i :: 0 <= i < |p| ==> IsWhitespace(p[i])
    requires forall i :: 0 <= i < |q| ==> IsWhitespace(q[i])
    requires s == [] || (!IsWhitespace(s[0]) && !IsWhitespace(s[|s| - 1]))
    ensures Normalize(p + s + q) == ToLower(s)
  {
    ToLowerAppend(p + s, q);
    ToLowerAppend(p, s);
    LowerBlank(p);
    LowerBlank(q);
    if s != [] {
      LowerCharWhitespace(s[0]);
      LowerCharWhitespace(s[|s| - 1]);
    }
    TrimPadded(ToLower(p), ToLower(s), ToLower(q));
  }

  lemma HelpInCapitals()
    ensures ToLower("HELP") == "help"
  {
    var l := ToLower("HELP");
    assert l[0] == LowerChar('H') == 'h';
    assert l[1] == LowerChar('E') == 'e';
    assert l[2] == LowerChar('L') == 'l';
    assert l[3] == LowerChar('P') == 'p';
  }

  lemma PaddedUpperHelpNormalizes()
    ensures Normalize("  HELP ") == "help"
  {
    assert "  " + "HELP" + " " == "  HELP ";
    NormalizePadded("  ", "HELP", " ");
    HelpInCapitals();
  }

  /** Output after Enter on a command other than `clear`: the old lines, the
      echoed prompt and what the command prints. */
  lemma EnterOutputSplit(cv: CV, output: seq<string>, command: string)
    requires Normalize(command) != "clear"
    ensures EnterOutput(cv, output, command) == output + [PromptLine(command)] + CommandLines(cv, Normalize(command))
  {
    var r := EnterOutput(cv, output, command);
    assert r == r[..|output|] + [r[|output|]] + r[|output| + 1..];
  }

  /** `"  HELP "` runs `help`. */
  lemma PaddedUpperHelpRunsHelp(cv: CV, output: seq<string>)
    ensures EnterOutput(cv, output, "  HELP ") == output + [PromptLine("  HELP ")] + HelpLines
  {
    PaddedUpperHelpNormalizes();
    EnterOutputSplit(cv, output, "  HELP ");
    assert CommandLines(cv, "help") == HelpLines;
  }

  /** `clear` in any case and with any padding empties the screen. */
  lemma ClearInAnyCaseEmpties(cv: CV, output: seq<string>, p: string, s: string, q: string)
    requires forall i :: 0 <= i < |p| ==> IsWhitespace(p[i])
    requires forall i :: 0 <= i < |q| ==> IsWhitespace(q[i])
    requires ToLower(s) == "clear"
    ensures EnterOutput(cv, output, p + s + q) == []
  {
    assert |s| == 5;
    assert LowerChar(s[0]) == 'c' && LowerChar(s[4]) == 'r';
    NormalizePadded(p, s, q);
  }

  /** An empty or all-whitespace command is not recognised: the prompt is
      echoed and the not-recognised message follows. */
  lemma BlankCommandNotRecognised(cv: CV, output: seq<string>, command: string)
    requires forall i :: 0 <= i < |command| ==> IsWhitespace(command[i])
    ensures EnterOutput(cv, output, command) == output + [PromptLine(command)] + NotRecognized
  {
    NormalizePadded(command, "", "");
    assert command + "" + "" == command;
    EnterOutputSplit(cv, output, command);
  }

  /** Every unknown command appends exactly the prompt and the two-line
      message. */
  lemma UnknownCommandAppends(cv: CV, output: seq<string>, command: string)
    requires Normalize(command) !in CommandNames
    ensures EnterOutput(cv, output, command) == output + [PromptLine(command)] + NotRecognized
  {
    assert Normalize(command) != "clear";
    EnterOutputSplit(cv, output, command);
  }

  /** The console session: the lines on screen and the text in the input. */
  class ConsoleSession {
    const cv: CV
    var output: seq<string>
    var currentCommand: string

    /** A new session shows the welcome lines and an empty input. */
    constructor(cv: CV)
      ensures this.cv == cv && output == WelcomeLines(cv) && currentCommand == ""
    {
      this.cv := cv;
      output := WelcomeLines(cv);
      currentCommand := "";
    }

    /** Typing in the input replaces the command text. */
    method Type(text: string)
      modifies this
      ensures currentCommand == text && output == old(output)
    {
      currentCommand := text;
    }

    /** `handleCommand`: Enter runs the command and empties the input; any
        other key changes nothing. */
    method HandleKey(key: string)
      modifies this
      ensures key == "Enter" ==> output == EnterOutput(cv, old(output), old(currentCommand)) && currentCommand == ""
      ensures key != "Enter" ==> output == old(output) && currentCommand == old(currentCommand)
    {
      if key == "Enter" {
        var cmd := Normalize(currentCommand);
        var lines := RunCommand(cv, cmd);
        var shown := if lines.Some? then lines.value else NotRecognized;
        assert shown == CommandLines(cv, cmd);
        if cmd == "clear" {
          output := [];
        } else {
          EnterOutputSplit(cv, output, currentCommand);
          output := output + [PromptLine(currentCommand)] + shown;
        }
        currentCommand := "";
      }
    }
  }
}
