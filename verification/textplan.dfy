/**
  The plan as the HTML fragment the Word export wraps: a heading with the
  idea, then one section per populated part of the plan in a fixed order.
  The persona section shows the lead persona.
 */
module TextPlan {
  import opened Wrappers
  import opened PlanTypes
  import Text

  const NoPlanText: string := "<h1>No plan available</h1>"

  function Header(idea: string): string {
    "<h1>App Plan: " + idea + "</h1>"
  }

  /** A titled section of the export. */
  function Section(title: string, content: string): string {
    "<h2>" + title + "</h2><div>" + content + "</div><br/>"
  }

  /** A bulleted list with one entry per item. */
  function List(items: seq<string>): string {
    "<ul>" + Text.Join(seq(|items|, i requires 0 <= i < |items| => "<li>" + items[i] + "</li>"), "") + "</ul>"
  }

  /** An MVP step as listed: its title and whether it is done. */
  function StepItem(s: MvpStep): string {
    s.title + " (" + (if s.completed then "Completed" else "Pending") + ")"
  }

  /** A feature as listed: its title and impact. */
  function FeatureItem(f: Feature): string {
    f.title + " (Impact: " + ImpactName(f.impact) + ")"
  }

  function StepItems(steps: seq<MvpStep>): seq<string> {
    seq(|steps|, i requires 0 <= i < |steps| => StepItem(steps[i]))
  }

  function FeatureItems(fs: seq<Feature>): seq<string> {
    seq(|fs|, i requires 0 <= i < |fs| => FeatureItem(fs[i]))
  }

  function ValidationContent(v: MarketValidation): string {
    "<p><b>Core Problem:</b> " + v.coreProblem + "</p>"
    + "<p><b>Founder Profile:</b> " + v.founderProfile + "</p>"
    + "<p><b>Community Research:</b> " + List(v.communityResearch) + "</p>"
    + "<p><b>Competitors:</b> " + List(v.competitors) + "</p>"
    + "<p><b>Differentiation:</b> " + List(v.differentiation) + "</p>"
    + "<p><b>Risk Assessment:</b> " + v.riskAssessment + "</p>"
  }

  function PersonaContent(q: Persona): string {
    "<p><b>Bio:</b> " + q.bio + "</p>"
    + "<p><b>Demographics:</b> " + q.demographics + "</p>"
    + "<b>Goals:</b>" + List(q.goals)
    + "<b>Pain Points:</b>" + List(q.painPoints)
  }

  function TechContent(t: TechStack): string {
    "<p><b>Category:</b> " + t.category + "</p>"
    + "<p><b>Backend:</b> " + t.backend + "</p>"
    + "<p><b>Database:</b> " + t.database + "</p>"
    + "<p><b>Authentication:</b> " + t.authentication + "</p>"
    + "<p><b>Payments:</b> " + t.payments + "</p>"
    + "<b>Services:</b> " + List(t.services)
  }

  /** The six sections, in the order the export writes them. */
  datatype SectionKind = Improvements | Validation | PersonaPart | TechPart | MvpPart | FeaturesPart

  const AllKinds: seq<SectionKind> := [Improvements, Validation, PersonaPart, TechPart, MvpPart, FeaturesPart]

  function KindIndex(k: SectionKind): nat {
    match k
    case Improvements => 0
    case Validation => 1
    case PersonaPart => 2
    case TechPart => 3
    case MvpPart => 4
    case FeaturesPart => 5
  }

  /** The plan has something to show in section `k`. */
  predicate Present(p: Plan, k: SectionKind) {
    match k
    case Improvements => |p.ideaImprovements| > 0
    case Validation => p.marketValidation.Some?
    case PersonaPart => LeadPersona(p).Some?
    case TechPart => p.techStack.Some?
    case MvpPart => |p.mvpPlan| > 0
    case FeaturesPart => |p.features| > 0
  }

  /** The text of section `k`; empty when the plan has nothing for it. */
  function SectionText(p: Plan, k: SectionKind): string {
    match k
    case Improvements => if |p.ideaImprovements| > 0 then Section("Idea Improvements", List(p.ideaImprovements)) else ""
    case Validation =>
      (match p.marketValidation
       case Some(v) => Section("Market Validation", ValidationContent(v))
       case None => "")
    case PersonaPart =>
      (match LeadPersona(p)
       case Some(q) => Section("Customer Persona: " + q.name, PersonaContent(q))
       case None => "")
    case TechPart =>
      (match p.techStack
       case Some(t) => Section("Tech Stack", TechContent(t))
       case None => "")
    case MvpPart => if |p.mvpPlan| > 0 then Section("MVP Plan", List(StepItems(p.mvpPlan))) else ""
    case FeaturesPart => if |p.features| > 0 then Section("Features", List(FeatureItems(p.features))) else ""
  }

  /** One step of the export: the section for `k` is added when the plan has something for it. */
  function Add(html: string, p: Plan, k: SectionKind): string {
    if Present(p, k) then html + SectionText(p, k) else html
  }

  /** `generateTextPlan`: the heading, then each populated section in turn. */
  function GenerateTextPlan(plan: Option<Plan>): string {
    match plan
    case None => NoPlanText
    case Some(p) =>
      var html := Header(p.idea);
      var html := Add(html, p, Improvements);
      var html := Add(html, p, Validation);
      var html := Add(html, p, PersonaPart);
      var html := Add(html, p, TechPart);
      var html := Add(html, p, MvpPart);
      var html := Add(html, p, FeaturesPart);
      html
  }

  /** The kinds of `ks` the plan has something for, in the order of `ks`. */
  function PresentAmong(p: Plan, ks: seq<SectionKind>): seq<SectionKind>
    decreases |ks|
  {
    if |ks| == 0 then []
    else (if Present(p, ks[0]) then [ks[0]] else []) + PresentAmong(p, ks[1..])
  }

  /** The sections the plan shows. */
  function PresentSections(p: Plan): seq<SectionKind> {
    PresentAmong(p, AllKinds)
  }

  /** The texts of the given sections, one after the other. */
  function Render(p: Plan, ks: seq<SectionKind>): string
    decreases |ks|
  {
    if |ks| == 0 then "" else SectionText(p, ks[0]) + Render(p, ks[1..])
  }

  /** Adding the sections of `ks` one by one, skipping the empty ones. */
  function AddAll(html: string, p: Plan, ks: seq<SectionKind>): string
    decreases |ks|
  {
    if |ks| == 0 then html else AddAll(Add(html, p, ks[0]), p, ks[1..])
  }

  /** Rendering a list that starts with `k` is the text of `k` followed by the rest. */
  lemma RenderCons(p: Plan, k: SectionKind, rest: seq<SectionKind>)
    ensures Render(p, [k] + rest) == SectionText(p, k) + Render(p, rest)
  {
    var r := [k] + rest;
    assert r[0] == k && r[1..] == rest;
  }

  /** Adding sections one by one appends the texts of the present ones. */
  lemma {:induction false} AddAllRendersPresent(html: string, p: Plan, ks: seq<SectionKind>)
    ensures AddAll(html, p, ks) == html + Render(p, PresentAmong(p, ks))
    decreases |ks|
  {
    if |ks| > 0 {
      var k, rest := ks[0], PresentAmong(p, ks[1..]);
      AddAllRendersPresent(Add(html, p, k), p, ks[1..]);
      if Present(p, k) {
        assert PresentAmong(p, ks) == [k] + rest;
        RenderCons(p, k, rest);
        Text.ConcatAssoc(html, SectionText(p, k), Render(p, rest));
      } else {
        assert PresentAmong(p, ks) == rest;
      }
    }
  }

  /** The export performs the six additions in the fixed order. */
  lemma ExportAddsAllKinds(p: Plan)
    ensures GenerateTextPlan(Some(p)) == AddAll(Header(p.idea), p, AllKinds)
  {
    var ks := AllKinds;
    assert ks[1..] == [Validation, PersonaPart, TechPart, MvpPart, FeaturesPart];
    assert ks[1..][1..] == [PersonaPart, TechPart, MvpPart, FeaturesPart];
    assert ks[1..][1..][1..] == [TechPart, MvpPart, FeaturesPart];
    assert ks[1..][1..][1..][1..] == [MvpPart, FeaturesPart];
    assert ks[1..][1..][1..][1..][1..] == [FeaturesPart];
  }

  /**
    The export is the heading followed by the texts of exactly the present
    sections, in the fixed order.
   */
  lemma TextPlanIsPresentSections(p: Plan)
    ensures GenerateTextPlan(Some(p)) == Header(p.idea) + Render(p, PresentSections(p))
  {
    ExportAddsAllKinds(p);
    AddAllRendersPresent(Header(p.idea), p, AllKinds);
  }

  /** Without a plan the export is a fixed notice; with one it opens with the idea's heading. */
  lemma TextPlanOpening(plan: Option<Plan>)
    ensures plan.None? ==> GenerateTextPlan(plan) == NoPlanText
    ensures plan.Some? ==>
              var r, h := GenerateTextPlan(plan), Header(plan.value.idea);
              |r| >= |h| && r[..|h|] == h
  {
    if plan.Some? {
      var p := plan.value;
      TextPlanIsPresentSections(p);
      var h, rest := Header(p.idea), Render(p, PresentSections(p));
      assert (h + rest)[..|h|] == h;
    }
  }

  /** Filtering keeps exactly the present kinds. */
  lemma {:induction false} PresentAmongMembers(p: Plan, ks: seq<SectionKind>, k: SectionKind)
    ensures k in PresentAmong(p, ks) <==> k in ks && Present(p, k)
    decreases |ks|
  {
    if |ks| > 0 {
      PresentAmongMembers(p, ks[1..], k);
      assert ks == [ks[0]] + ks[1..];
    }
  }

  /** A section appears exactly when its part of the plan is populated. */
  lemma SectionShownIff(p: Plan, k: SectionKind)
    ensures k in PresentSections(p) <==> Present(p, k)
  {
    PresentAmongMembers(p, AllKinds, k);
    assert k in AllKinds by {
      assert AllKinds[KindIndex(k)] == k;
    }
  }

  /** Kinds listed strictly in the export's order. */
  predicate InKindOrder(ks: seq<SectionKind>) {
    forall i, j :: 0 <= i < j < |ks| ==> KindIndex(ks[i]) < KindIndex(ks[j])
  }

  /** Filtering keeps the order of the kinds it started from. */
  lemma {:induction false} PresentAmongOrdered(p: Plan, ks: seq<SectionKind>)
    requires InKindOrder(ks)
    ensures InKindOrder(PresentAmong(p, ks))
    decreases |ks|
  {
    if |ks| > 0 {
      var tail := ks[1..];
      PresentAmongOrdered(p, tail);
      var rest := PresentAmong(p, tail);
      forall i | 0 <= i < |rest|
        ensures KindIndex(ks[0]) < KindIndex(rest[i])
      {
        PresentAmongMembers(p, tail, rest[i]);
        assert rest[i] in tail;
        var j :| 0 <= j < |tail| && tail[j] == rest[i];
        assert ks[j + 1] == rest[i];
      }
      assert forall i, j :: 0 <= i < j < |rest| ==> KindIndex(rest[i]) < KindIndex(rest[j]);
      var r := PresentAmong(p, ks);
      if Present(p, ks[0]) {
        assert r == [ks[0]] + rest;
        forall i, j | 0 <= i < j < |r|
          ensures KindIndex(r[i]) < KindIndex(r[j])
        {
          assert r[j] == rest[j - 1];
          if i > 0 {
            assert r[i] == rest[i - 1];
          } else {
            assert r[i] == ks[0];
          }
        }
      } else {
        assert r == rest;
      }
    }
  }

  /** The fixed order lists each kind at its own index. */
  lemma AllKindsOrdered()
    ensures forall i :: 0 <= i < |AllKinds| ==> KindIndex(AllKinds[i]) == i
    ensures InKindOrder(AllKinds)
  {
  }

  /** The sections come out in the order improvements, validation, persona, tech stack, MVP plan, features. */
  lemma SectionsInOrder(p: Plan)
    ensures InKindOrder(PresentSections(p))
  {
    AllKindsOrdered();
    PresentAmongOrdered(p, AllKinds);
  }

  const CompletedTag: string := " (Completed)"

  /** Whether a listed MVP item says the step is done. */
  predicate SaysCompleted(item: string) {
    |item| >= |CompletedTag| && item[|item| - |CompletedTag|..] == CompletedTag
  }

  /** A listed MVP item says "Completed" exactly when the step is completed. */
  lemma StepItemDecodes(s: MvpStep)
    ensures SaysCompleted(StepItem(s)) <==> s.completed
  {
    var item := StepItem(s);
    if s.completed {
      assert item == s.title + CompletedTag;
    } else {
      assert item == s.title + " (Pending)";
      var tail := item[|item| - 10..];
      assert tail == " (Pending)";
      if |item| >= |CompletedTag| {
        assert item[|item| - |CompletedTag|..][2] == tail[0] == ' ';
      }
    }
  }

  /** Reads the impact back from the end of a listed feature. */
  function ImpactOfItem(item: string): Option<Impact> {
    if |item| >= 6 && item[|item| - 6..] == " High)" then Some(High)
    else if |item| >= 8 && item[|item| - 8..] == " Medium)" then Some(Medium)
    else if |item| >= 5 && item[|item| - 5..] == " Low)" then Some(Low)
    else None
  }

  /** A listed feature's impact is read back exactly. */
  lemma FeatureItemDecodes(f: Feature)
    ensures ImpactOfItem(FeatureItem(f)) == Some(f.impact)
  {
    var item := FeatureItem(f);
    var n := |item|;
    match f.impact
    case High =>
      assert item == (f.title + " (Impact:") + " High)";
    case Medium =>
      assert item == (f.title + " (Impact:") + " Medium)";
      assert item[n - 6..][0] == item[n - 8..][2] == 'e';
    case Low =>
      assert item == (f.title + " (Impact:") + " Low)";
      assert item[n - 6..][0] == ':';
      assert item[n - 8..][0] == 'c';
  }
}
