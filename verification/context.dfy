/**
  The plan summary that prefixes every generation request after the first:
  the idea, the improvements, and, when present, the lead persona and the
  backend and database of the tech stack.
 */
module PlanContext {
  import opened Wrappers
  import opened PlanTypes
  import Text

  /** The improvements joined by ", ", or "None" when that comes out empty. */
  function ImprovementsText(p: Plan): string {
    Text.OrElse(Text.Join(p.ideaImprovements, ", "), "None")
  }

  const IdeaLabel: string := "\n    Current App Plan Context:\n    - Idea: "

  /** The opening block, including the indentation that ends the template. */
  function ContextBase(p: Plan): string {
    IdeaLabel + (p.idea + ("\n    - Improvements: " + ImprovementsText(p) + "\n    "))
  }

  function PersonaLine(q: Persona): string {
    PersonaTag + q.name + ", " + q.bio + "\n"
  }

  function TechLine(t: TechStack): string {
    "- Tech Stack: Backend: " + t.backend + ", DB: " + t.database + "\n"
  }

  /** The context string: the opening block, then the optional persona and tech-stack lines. */
  function BuildContext(p: Plan): string {
    var context := ContextBase(p);
    var context := if LeadPersona(p).Some? then context + PersonaLine(LeadPersona(p).value) else context;
    var context := if p.techStack.Some? then context + TechLine(p.techStack.value) else context;
    context
  }

  /** The context always carries the idea, right after the fixed label. */
  lemma IdeaAlwaysPresent(p: Plan)
    ensures var c := BuildContext(p);
            |c| >= |IdeaLabel| + |p.idea|
            && c[..|IdeaLabel|] == IdeaLabel
            && c[|IdeaLabel|..|IdeaLabel| + |p.idea|] == p.idea
  {
    var personaPart := if LeadPersona(p).Some? then PersonaLine(LeadPersona(p).value) else "";
    var techPart := if p.techStack.Some? then TechLine(p.techStack.value) else "";
    ContextLayout(p);
    LeadingParts(IdeaLabel, p.idea, "\n    - Improvements: " + ImprovementsText(p) + "\n    ", personaPart + techPart);
  }

  /** The first two parts of a concatenation can be read back from its front. */
  lemma LeadingParts(a: string, b: string, y: string, z: string)
    ensures var c := a + (b + y) + z;
            |c| >= |a| + |b| && c[..|a|] == a && c[|a|..|a| + |b|] == b
  {
    var c := a + (b + y) + z;
    assert c[..|a| + |b|] == a + b;
  }

  /** "None" stands in exactly when the joined improvements are empty: no improvements, or one empty one. */
  lemma ImprovementsNoneIff(p: Plan)
    ensures Text.Join(p.ideaImprovements, ", ") == "" <==>
              |p.ideaImprovements| == 0 || (|p.ideaImprovements| == 1 && p.ideaImprovements[0] == "")
    ensures Text.Join(p.ideaImprovements, ", ") == "" ==> ImprovementsText(p) == "None"
    ensures Text.Join(p.ideaImprovements, ", ") != "" ==> ImprovementsText(p) == Text.Join(p.ideaImprovements, ", ")
  {
    Text.JoinEmptyIff(p.ideaImprovements, ", ");
  }

  /**
    After the opening block comes the persona line exactly when there is a
    lead persona, carrying its name and bio, and then the tech-stack line
    exactly when a tech stack is set, carrying its backend and database.
   */
  lemma ContextLayout(p: Plan)
    ensures var c, b := BuildContext(p), ContextBase(p);
            var personaPart := if LeadPersona(p).Some? then PersonaLine(LeadPersona(p).value) else "";
            var techPart := if p.techStack.Some? then TechLine(p.techStack.value) else "";
            c == b + personaPart + techPart
  {
  }

  predicate StartsWith(s: string, prefix: string) {
    |s| >= |prefix| && s[..|prefix|] == prefix
  }

  const PersonaTag: string := "- Persona: "

  /** A persona line, whatever follows it, opens with the tag. */
  lemma PersonaLineTagged(q: Persona, after: string)
    ensures StartsWith(PersonaLine(q) + after, PersonaTag)
  {
    assert PersonaLine(q) + after == PersonaTag + (q.name + ", " + q.bio + "\n" + after);
  }

  /** A tech-stack line does not open with the persona tag. */
  lemma TechLineUntagged(t: TechStack)
    ensures !StartsWith(TechLine(t), PersonaTag)
  {
    var line := TechLine(t);
    assert line == "- Tech Stack: Backend: " + (t.backend + ", DB: " + t.database + "\n");
    assert line[2] == 'T';
    if |line| >= |PersonaTag| {
      assert line[..|PersonaTag|][2] == 'T';
    }
  }

  /** A block followed by an optional tagged part and an untagged rest: the tag follows the block exactly when the part is there. */
  lemma TagAfterBlock(b: string, personaPart: string, techPart: string, hasPersona: bool)
    requires hasPersona ==> StartsWith(personaPart + techPart, PersonaTag)
    requires !hasPersona ==> personaPart == "" && !StartsWith(techPart, PersonaTag)
    ensures var c := b + personaPart + techPart;
            StartsWith(c, b) && (hasPersona <==> StartsWith(c[|b|..], PersonaTag))
  {
    var c := b + personaPart + techPart;
    assert c == b + (personaPart + techPart);
    assert c[|b|..] == personaPart + techPart;
    if !hasPersona {
      assert personaPart + techPart == techPart;
    }
  }

  /**
    The context opens with its fixed block; what follows starts with
    "- Persona: " exactly when there is a lead persona, and then carries that
    persona's name and, after ", ", its bio.
   */
  lemma PersonaLineIff(p: Plan)
    ensures var c, b := BuildContext(p), ContextBase(p);
            StartsWith(c, b) && (LeadPersona(p).Some? <==> StartsWith(c[|b|..], PersonaTag))
    ensures LeadPersona(p).Some? ==>
              var c, q := BuildContext(p), LeadPersona(p).value;
              var i := |ContextBase(p)| + |PersonaTag|;
              var j := i + |q.name| + 2;
              |c| >= j + |q.bio| && c[i..i + |q.name|] == q.name
              && c[i + |q.name|..j] == ", " && c[j..j + |q.bio|] == q.bio
  {
    var personaPart := if LeadPersona(p).Some? then PersonaLine(LeadPersona(p).value) else "";
    var techPart := if p.techStack.Some? then TechLine(p.techStack.value) else "";
    ContextLayout(p);
    if LeadPersona(p).Some? {
      PersonaLineTagged(LeadPersona(p).value, techPart);
      PersonaLineParts(p);
    } else if p.techStack.Some? {
      TechLineUntagged(p.techStack.value);
    }
    TagAfterBlock(ContextBase(p), personaPart, techPart, LeadPersona(p).Some?);
  }

  /** The lead persona's name and bio sit at fixed offsets after the opening block and the tag. */
  lemma PersonaLineParts(p: Plan)
    requires LeadPersona(p).Some?
    ensures var c, q := BuildContext(p), LeadPersona(p).value;
            var i := |ContextBase(p)| + |PersonaTag|;
            var j := i + |q.name| + 2;
            |c| >= j + |q.bio| && c[i..i + |q.name|] == q.name
            && c[i + |q.name|..j] == ", " && c[j..j + |q.bio|] == q.bio
  {
    var q := LeadPersona(p).value;
    var techPart := if p.techStack.Some? then TechLine(p.techStack.value) else "";
    ContextLayout(p);
    PartsAt(BuildContext(p), ContextBase(p), PersonaLine(q), PersonaTag, q.name, ", ", q.bio, "\n", techPart);
  }

  /** The parts of a line written after a block can be read back at their offsets. */
  lemma PartsAt(c: string, b: string, line: string, t: string, x: string, sep: string, y: string, z: string, rest: string)
    requires line == t + x + sep + y + z && c == b + line + rest
    ensures var i := |b| + |t|;
            var j := i + |x| + |sep|;
            |c| >= j + |y| && c[i..i + |x|] == x && c[i + |x|..j] == sep && c[j..j + |y|] == y
  {
    var i := |b| + |t|;
    var j := i + |x| + |sep|;
    assert c == (b + t) + x + sep + y + (z + rest);
    assert c[..j + |y|] == (b + t) + x + sep + y;
  }

  /**
    The tech-stack line is present exactly when a tech stack is set; it is
    the last line, so it follows any persona line.
   */
  lemma TechLineIff(p: Plan)
    ensures var c, b := BuildContext(p), ContextBase(p);
            var personaLen := if LeadPersona(p).Some? then |PersonaLine(LeadPersona(p).value)| else 0;
            (p.techStack.Some? <==> |c| > |b| + personaLen)
            && (p.techStack.Some? ==>
                  var t := TechLine(p.techStack.value);
                  |c| == |b| + personaLen + |t| && c[|c| - |t|..] == t)
  {
    var c, b := BuildContext(p), ContextBase(p);
    var personaPart := if LeadPersona(p).Some? then PersonaLine(LeadPersona(p).value) else "";
    ContextLayout(p);
    if p.techStack.Some? {
      var t := TechLine(p.techStack.value);
      assert c == (b + personaPart) + t;
    }
  }
}
