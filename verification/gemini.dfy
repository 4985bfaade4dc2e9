/** The deterministic helpers around the model calls of the optimiser
    service: stripping Markdown fences from a reply, the record used when the
    input is not JSON, the merge of the writer's reply into the original
    resume, the analyst's fallback reply, and the scores and suggestions of
    the final result. What the model replies is an input: `None` stands for a
    reply that does not parse. */
module Gemini {
  import opened Types
  import opened Text

  // ---------------------------------------------------------------------------
  // Fence stripping
  // ---------------------------------------------------------------------------

  const Fence: string := "```"
  const JsonFence: string := "```json"

  /** A string free of the pattern is left alone by `replace(/p/g, "")`. */
  lemma {:induction false} RemoveAllAbsent(s: string, p: string)
    requires |p| > 0 && !Contains(s, p)
    ensures RemoveAll(s, p) == s
    decreases |s|
  {
    if |s| >= |p| {
      assert !OccursAt(s, p, 0);
      assert !Contains(s[1..], p) by {
        if Contains(s[1..], p) {
          var i :| 0 <= i <= |s[1..]| - |p| && OccursAt(s[1..], p, i);
          assert s[i + 1..i + 1 + |p|] == s[1..][i..i + |p|];
          assert OccursAt(s, p, i + 1);
        }
      }
      RemoveAllAbsent(s[1..], p);
      HeadTail(s);
    }
  }

  /** A string that does not start with a backtick keeps its first character. */
  lemma KeepsHead(s: string)
    requires |s| > 0 && s[0] != '`'
    ensures |RemoveAll(s, Fence)| > 0 && RemoveAll(s, Fence)[0] == s[0]
  {
    if |s| >= 3 {
      assert s[..3] != Fence;
    }
  }

  lemma NoFenceCons(c: char, t: string)
    requires !Contains(t, Fence)
    requires c == '`' ==> |t| < 2 || t[0] != '`' || t[1] != '`'
    ensures !Contains([c] + t, Fence)
  {
    var s := [c] + t;
    forall i | 0 < i <= |s| - 3
      ensures !OccursAt(s, Fence, i)
    {
      assert s[i..i + 3] == t[i - 1..i + 2];
      assert !OccursAt(t, Fence, i - 1);
    }
    if |s| >= 3 {
      assert s[0..3] == [c, t[0], t[1]];
    }
  }

  /** Deleting every fence, left to right, leaves no fence: a run of k
      backticks keeps k mod 3 of them, and runs stay apart. */
  lemma {:induction false} NoFenceAfterRemove(s: string)
    ensures !Contains(RemoveAll(s, Fence), Fence)
    decreases |s|
  {
    var r := RemoveAll(s, Fence);
    if |s| < 3 {
      assert !Contains(r, Fence);
    } else if s[..3] == Fence {
      NoFenceAfterRemove(s[3..]);
    } else {
      var t := RemoveAll(s[1..], Fence);
      NoFenceAfterRemove(s[1..]);
      assert r == [s[0]] + t;
      if s[0] == '`' && |t| >= 2 && t[0] == '`' && t[1] == '`' {
        if s[1] != '`' {
          KeepsHead(s[1..]);
          assert false;
        } else {
          assert s[2] != '`';
          var u := s[2..];
          assert s[1..][..3] != Fence;
          assert |s[1..]| >= 3 ==> t == [s[1]] + RemoveAll(u, Fence) by {
            if |s[1..]| >= 3 {
              assert s[1..][1..] == u;
            }
          }
          if |s[1..]| >= 3 {
            KeepsHead(u);
            assert false;
          } else {
            assert false;
          }
        }
      }
      NoFenceCons(s[0], t);
    }
  }

  /** `cleanJSON`: "{}" for an empty reply; otherwise every "```json", then
      every "```", is deleted and the rest trimmed, so that no fence and no
      surrounding whitespace is left. */
  function CleanJson(text: string): (r: string)
    ensures text == "" ==> r == "{}"
    ensures text != "" && '`' !in text ==> r == Trim(text)
    ensures !Contains(r, Fence)
    ensures NoSurroundingSpace(r)
  {
    if text == "" then
      assert !IsSpace('{') && !IsSpace('}');
      "{}"
    else
      var stripped := RemoveAll(RemoveAll(text, JsonFence), Fence);
      NoFenceAfterRemove(RemoveAll(text, JsonFence));
      TrimWithout(stripped, Fence);
      PlainUnchanged(text);
      Trim(stripped)
  }

  /** A pattern that starts with a backtick does not occur in a text without one. */
  lemma NoBacktickNoMatch(s: string, p: string)
    requires |p| > 0 && p[0] == '`' && '`' !in s
    ensures !Contains(s, p)
  {
    forall i | 0 <= i <= |s| - |p|
      ensures !OccursAt(s, p, i)
    {
      assert s[i..i + |p|][0] == s[i];
    }
  }

  /** A reply without backticks goes through both deletions unchanged. */
  lemma PlainUnchanged(text: string)
    ensures '`' !in text ==> RemoveAll(RemoveAll(text, JsonFence), Fence) == text
  {
    if '`' !in text {
      NoBacktickNoMatch(text, JsonFence);
      RemoveAllAbsent(text, JsonFence);
      NoBacktickNoMatch(text, Fence);
      RemoveAllAbsent(text, Fence);
    }
  }

  /** A backtick-free prefix is kept in front of what the deletion leaves of the rest. */
  lemma {:induction false} RemoveAllPrefix(a: string, t: string, p: string)
    requires |p| > 0 && p[0] == '`' && '`' !in a
    ensures RemoveAll(a + t, p) == a + RemoveAll(t, p)
    decreases |a|
  {
    if |a| == 0 {
      assert a + t == t;
    } else {
      var s := a + t;
      assert s[0] == a[0];
      assert s[1..] == a[1..] + t;
      RemoveAllPrefix(a[1..], t, p);
      if |s| >= |p| {
        assert s[..|p|][0] == a[0];
        assert s[..|p|] != p;
        assert RemoveAll(s, p) == [a[0]] + RemoveAll(a[1..] + t, p);
      }
      assert [a[0]] + (a[1..] + RemoveAll(t, p)) == a + RemoveAll(t, p);
    }
  }

  /** A reply wrapped in a JSON code fence is cleaned to its trimmed body,
      when the body holds no backtick. */
  lemma CleanFenced(body: string)
    requires '`' !in body
    ensures CleanJson(JsonFence + body + Fence) == Trim(body)
  {
    var t := JsonFence + body + Fence;
    var u := body + Fence;
    assert t[..|JsonFence|] == JsonFence && t[|JsonFence|..] == u;
    assert RemoveAll(t, JsonFence) == RemoveAll(u, JsonFence);
    forall i | 0 <= i <= |u| - |JsonFence|
      ensures !OccursAt(u, JsonFence, i)
    {
      assert u[i..i + |JsonFence|][0] == u[i] == body[i];
    }
    RemoveAllAbsent(u, JsonFence);
    RemoveAllPrefix(body, Fence, Fence);
    assert Fence[..|Fence|] == Fence && Fence[|Fence|..] == "";
    assert RemoveAll(Fence, Fence) == "";
    assert body + "" == body;
  }

  /** A clean reply is its own cleaning, unless it came out empty (an empty
      reply is cleaned to "{}"). */
  lemma CleanJsonIdempotent(text: string)
    requires CleanJson(text) != ""
    ensures CleanJson(CleanJson(text)) == CleanJson(text)
  {
    var r := CleanJson(text);
    if Contains(r, JsonFence) {
      var i :| 0 <= i <= |r| - |JsonFence| && OccursAt(r, JsonFence, i);
      assert r[i..i + 3] == r[i..i + 7][..3];
      assert OccursAt(r, Fence, i);
    }
    RemoveAllAbsent(r, JsonFence);
    RemoveAllAbsent(r, Fence);
    TrimNoop(r);
  }

  // ---------------------------------------------------------------------------
  // Raw-text input
  // ---------------------------------------------------------------------------

  /** The record built when the resume text is not JSON: the name
      "Candidate", the first 300 characters plus "..." as summary, and one
      experience entry holding the whole text. */
  function FallbackRecord(raw: string): (r: ResumeData)
    ensures r.fullName == "Candidate" && r.email == "" && r.phone == "" && r.location == ""
    ensures r.linkedin.None? && r.skills == [] && r.education == []
    ensures |r.summary| == (if |raw| < 300 then |raw| else 300) + 3
    ensures r.summary[..|r.summary| - 3] == raw[..|r.summary| - 3] && r.summary[|r.summary| - 3..] == "..."
    ensures |raw| <= 300 ==> r.summary == raw + "..."
    ensures r.experience == [Experience("Unknown", "Experience", "Present", [raw])]
  {
    var head := if |raw| < 300 then raw else raw[..300];
    assert |raw| <= 300 ==> head == raw;
    ResumeData("Candidate", "", "", None, "", head + "...",
      [Experience("Unknown", "Experience", "Present", [raw])], [], [])
  }

  /** The record `optimizeResume` works on: the parsed reply, or the fallback. */
  function InputRecord(raw: string, parsed: Option<ResumeData>): (r: ResumeData)
    ensures parsed.Some? ==> r == parsed.value
    ensures parsed.None? ==> r == FallbackRecord(raw)
  {
    match parsed
    case Some(d) => d
    case None => FallbackRecord(raw)
  }

  // ---------------------------------------------------------------------------
  // The writer's reply
  // ---------------------------------------------------------------------------

  /** A field the reply may give as an array or as anything else (missing,
      null, a string). */
  datatype ArrayField<T> = IsArray(items: seq<T>) | NotArray

  /** The writer's parsed reply: every string field may be missing. */
  datatype WriterReply = WriterReply(
    fullName: Option<string>,
    email: Option<string>,
    phone: Option<string>,
    linkedin: Option<string>,
    location: Option<string>,
    summary: Option<string>,
    experience: ArrayField<Experience>,
    skills: ArrayField<string>,
    education: ArrayField<Education>)

  /** The value is truthy: present and not empty. */
  predicate Truthy(s: Option<string>) {
    s.Some? && s.value != ""
  }

  /** `a || b || fallback` over strings. */
  function FirstTruthy(a: Option<string>, b: string, fallback: string): (r: string)
    ensures Truthy(a) ==> r == a.value
    ensures !Truthy(a) && b != "" ==> r == b
    ensures !Truthy(a) && b == "" ==> r == fallback
  {
    if Truthy(a) then a.value else if b != "" then b else fallback
  }

  function ArrayOr<T>(f: ArrayField<T>): seq<T> {
    match f
    case IsArray(items) => items
    case NotArray => []
  }

  /** The writer's LinkedIn is usable: non-empty, longer than five
      characters, and not the placeholder "linkedin url" in any letter case. */
  predicate UsableLinkedin(l: Option<string>)
    ensures UsableLinkedin(l) ==> Truthy(l) && ToLower(l.value) != "linkedin url"
  {
    l.Some? && |l.value| > 5 && (SelfContains(ToLower(l.value)); !Contains(ToLower(l.value), "linkedin url"))
  }

  lemma SelfContains(s: string)
    ensures Contains(s, s)
  {
    assert OccursAt(s, s, 0);
  }

  /** The record `runWriterAgent` returns for a parsed reply. */
  function MergeReply(resume: ResumeData, reply: WriterReply): (r: ResumeData)
    ensures r.linkedin == (if UsableLinkedin(reply.linkedin) then reply.linkedin else resume.linkedin)
    ensures r.fullName != ""
    ensures Truthy(reply.fullName) ==> r.fullName == reply.fullName.value
    ensures !Truthy(reply.fullName) ==> r.fullName == (if resume.fullName != "" then resume.fullName else "Candidate")
    ensures Truthy(reply.summary) ==> r.summary == reply.summary.value
    ensures !Truthy(reply.summary) ==> r.summary == resume.summary
    ensures r.email == FirstTruthy(reply.email, resume.email, "")
    ensures r.phone == FirstTruthy(reply.phone, resume.phone, "")
    ensures r.location == FirstTruthy(reply.location, resume.location, "")
    ensures r.experience == ArrayOr(reply.experience) && r.skills == ArrayOr(reply.skills)
      && r.education == ArrayOr(reply.education)
  {
    ResumeData(
      FirstTruthy(reply.fullName, resume.fullName, "Candidate"),
      FirstTruthy(reply.email, resume.email, ""),
      FirstTruthy(reply.phone, resume.phone, ""),
      if UsableLinkedin(reply.linkedin) then reply.linkedin else resume.linkedin,
      FirstTruthy(reply.location, resume.location, ""),
      FirstTruthy(reply.summary, resume.summary, ""),
      ArrayOr(reply.experience),
      ArrayOr(reply.skills),
      ArrayOr(reply.education))
  }

  /** `runWriterAgent` after the call: a reply that does not parse leaves the
      resume as it was. */
  function WriterResult(resume: ResumeData, reply: Option<WriterReply>): (r: ResumeData)
    ensures reply.None? ==> r == resume
    ensures reply.Some? ==> r == MergeReply(resume, reply.value)
  {
    match reply
    case None => resume
    case Some(w) => MergeReply(resume, w)
  }

  /** The reply a writer would give by echoing the resume unchanged. */
  function Echo(d: ResumeData): WriterReply {
    WriterReply(Some(d.fullName), Some(d.email), Some(d.phone), d.linkedin, Some(d.location),
      Some(d.summary), IsArray(d.experience), IsArray(d.skills), IsArray(d.education))
  }

  /** Echoing the resume gives it back, except that an empty name becomes
      "Candidate". */
  lemma EchoMerge(d: ResumeData)
    ensures MergeReply(d, Echo(d)) == (if d.fullName == "" then d.(fullName := "Candidate") else d)
  {
  }

  /** Merging the same reply a second time changes nothing. */
  lemma MergeIdempotent(d: ResumeData, reply: WriterReply)
    ensures MergeReply(MergeReply(d, reply), reply) == MergeReply(d, reply)
  {
  }

  /** The arrays never come from the original: a reply without them empties
      experience, skills and education, whatever the resume held. */
  lemma ArraysNotRestored(d: ResumeData, reply: WriterReply)
    requires reply.experience.NotArray? && reply.skills.NotArray? && reply.education.NotArray?
    ensures var r := MergeReply(d, reply); r.experience == [] && r.skills == [] && r.education == []
  {
  }

  /** A value of five characters or fewer is refused, and so is any value
      holding the placeholder in any letter case, the placeholder itself
      included. */
  lemma PlaceholderRefused(s: string)
    requires |s| <= 5 || ToLower(s) == "linkedin url" || Contains(ToLower(s), "linkedin url")
    ensures !UsableLinkedin(Some(s))
  {
  }

  // ---------------------------------------------------------------------------
  // The analyst's reply and the final result
  // ---------------------------------------------------------------------------

  datatype Metric = Metric(score: int, feedback: string)

  datatype Breakdown = Breakdown(keywords: Metric, relevance: Metric, formatting: Metric)

  /** The analyst's parsed reply; every field may be missing. A score of 0
      and a missing score are both falsy. */
  datatype AnalystReply = AnalystReply(
    currentScore: Option<int>,
    hardSkillGaps: Option<seq<string>>,
    softSkillGaps: Option<seq<string>>,
    rewriteInstructions: Option<string>,
    feedback: Option<string>,
    breakdown: Option<Breakdown>)

  /** The reply `runAnalystAgent` returns when the model's reply does not parse. */
  const AnalystFallback: AnalystReply := AnalystReply(
    Some(50),
    Some(["Analysis Failed"]),
    Some(["Please try again"]),
    Some("General optimization recommended."),
    Some("Could not complete detailed analysis."),
    Some(Breakdown(Metric(50, "N/A"), Metric(50, "N/A"), Metric(50, "N/A"))))

  function AnalystResult(reply: Option<AnalystReply>): (r: AnalystReply)
    ensures reply.None? ==> r == AnalystFallback
    ensures reply.Some? ==> r == reply.value
  {
    match reply
    case None => AnalystFallback
    case Some(a) => a
  }

  datatype Analysis = Analysis(
    keywordGaps: seq<string>,
    strengths: seq<string>,
    weaknesses: seq<string>,
    suggestions: seq<string>,
    breakdown: Breakdown)

  datatype OptimizationResult = OptimizationResult(
    originalScore: int,
    optimizedScore: int,
    analysis: Analysis,
    optimizedResume: ResumeData)

  /** `currentScore || 50`. */
  function OriginalScore(current: Option<int>): (r: int)
    ensures current.Some? && current.value != 0 ==> r == current.value
    ensures current.None? || current.value == 0 ==> r == 50
  {
    if current.Some? && current.value != 0 then current.value else 50
  }

  /** The promised score: 25 more than the original, capped at 98. */
  function OptimizedScore(current: Option<int>): (r: int)
    ensures r <= 98
    ensures OriginalScore(current) <= 73 ==> r == OriginalScore(current) + 25
    ensures OriginalScore(current) > 73 ==> r == 98
  {
    var o := OriginalScore(current);
    if o + 25 < 98 then o + 25 else 98
  }

  /** The promised score is never below the original unless the original is
      already above the cap; a missing score gives 50 and 75. */
  lemma ScoresOrdered(current: Option<int>)
    ensures OptimizedScore(current) >= OriginalScore(current) <==> OriginalScore(current) <= 98
    ensures current.None? ==> OriginalScore(current) == 50 && OptimizedScore(current) == 75
  {
  }

  /** The neutral breakdown used when the reply has none. */
  const EmptyBreakdown: Breakdown := Breakdown(Metric(0, "N/A"), Metric(0, "N/A"), Metric(0, "N/A"))

  function OrEmpty(s: Option<seq<string>>): seq<string> {
    if s.Some? then s.value else []
  }

  /** The result `optimizeResume` returns. */
  function BuildResult(a: AnalystReply, optimized: ResumeData): (r: OptimizationResult)
    ensures r.originalScore == OriginalScore(a.currentScore)
    ensures r.optimizedScore == OptimizedScore(a.currentScore)
    ensures r.analysis.keywordGaps == OrEmpty(a.hardSkillGaps)
    ensures r.analysis.strengths == []
    ensures r.analysis.weaknesses == OrEmpty(a.softSkillGaps)
    ensures |r.analysis.suggestions| == 2
    ensures r.analysis.suggestions[0] == FirstTruthy(a.feedback, "", "Improve keyword density.")
    ensures r.analysis.suggestions[1] == FirstTruthy(a.rewriteInstructions, "", "Focus on metrics.")
    ensures r.analysis.breakdown == (if a.breakdown.Some? then a.breakdown.value else EmptyBreakdown)
    ensures r.optimizedResume == optimized
  {
    OptimizationResult(
      OriginalScore(a.currentScore),
      OptimizedScore(a.currentScore),
      Analysis(
        OrEmpty(a.hardSkillGaps),
        [],
        OrEmpty(a.softSkillGaps),
        [FirstTruthy(a.feedback, "", "Improve keyword density."),
         FirstTruthy(a.rewriteInstructions, "", "Focus on metrics.")],
        if a.breakdown.Some? then a.breakdown.value else EmptyBreakdown),
      optimized)
  }

  /** When the analyst's reply does not parse, the result shows 50 and 75,
      the fallback's gaps and its two messages as suggestions. */
  lemma FailedAnalysisResult(optimized: ResumeData)
    ensures var r := BuildResult(AnalystResult(None), optimized);
      && r.originalScore == 50 && r.optimizedScore == 75
      && r.analysis.keywordGaps == ["Analysis Failed"]
      && r.analysis.weaknesses == ["Please try again"]
      && r.analysis.suggestions == ["Could not complete detailed analysis.", "General optimization recommended."]
  {
  }

  /** `optimizeResume` from its inputs: the parsed resume (or the raw-text
      fallback), the analyst's reply and the writer's reply, each `None` when
      it does not parse. */
  function OptimizeResume(raw: string, parsed: Option<ResumeData>, analyst: Option<AnalystReply>, writer: Option<WriterReply>): (r: OptimizationResult)
    ensures r.optimizedResume == WriterResult(InputRecord(raw, parsed), writer)
    ensures writer.None? ==> r.optimizedResume == InputRecord(raw, parsed)
    ensures r.originalScore == OriginalScore(AnalystResult(analyst).currentScore)
    ensures r.optimizedScore == OptimizedScore(AnalystResult(analyst).currentScore) <= 98
    ensures analyst.None? ==> r.originalScore == 50 && r.optimizedScore == 75
  {
    var resume := InputRecord(raw, parsed);
    BuildResult(AnalystResult(analyst), WriterResult(resume, writer))
  }
}
