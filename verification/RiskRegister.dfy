/** The register of risks: identifiers minted per project, and a write that either reaches
    the file or leaves nothing behind. */
module RiskRegister {
  import opened Common

  datatype Project = Project(id: string, prefix: string)

  datatype Severity = Low | Medium | High

  datatype Risk = Risk(id: string, project: string, title: string, severity: Severity)

  // -- numbers in identifiers -----------------------------------------------------------

  predicate IsDigit(c: char) { '0' <= c <= '9' }

  /** Not empty, and digits only. */
  predicate IsNumber(text: string) {
    text != "" && forall i :: 0 <= i < |text| ==> IsDigit(text[i])
  }

  function Value(text: string): nat
    requires forall i :: 0 <= i < |text| ==> IsDigit(text[i])
  {
    if text == "" then 0
    else
      var c := text[|text| - 1];
      assert IsDigit(c);
      10 * Value(text[..|text| - 1]) + (c as int - '0' as int)
  }

  function DigitOf(n: nat): char
    requires n < 10
  {
    ('0' as int + n) as char
  }

  function Decimal(n: nat): string {
    if n < 10 then [DigitOf(n)] else Decimal(n / 10) + [DigitOf(n % 10)]
  }

  /** What follows the last dash; all of it when there is none. */
  function Suffix(id: string): string {
    if id == "" || id[|id| - 1] == '-' then "" else Suffix(id[..|id| - 1]) + [id[|id| - 1]]
  }

  lemma {:induction false} DecimalReads(n: nat)
    ensures IsNumber(Decimal(n)) && Value(Decimal(n)) == n
  {
    if n >= 10 {
      DecimalReads(n / 10);
      assert Decimal(n)[..|Decimal(n)| - 1] == Decimal(n / 10);
    } else {
      assert Decimal(n)[..0] == "";
    }
  }

  lemma {:induction false} SuffixOf(front: string, number: string)
    requires forall i :: 0 <= i < |number| ==> IsDigit(number[i])
    ensures Suffix(front + "-" + number) == number
    decreases |number|
  {
    var id := front + "-" + number;
    if number != "" {
      SuffixOf(front, number[..|number| - 1]);
      assert id[..|id| - 1] == front + "-" + number[..|number| - 1];
    }
  }

  /** The dash that a number follows splits an identifier in one way. */
  lemma OneSplit(front: string, number: string, other: string, digits: string)
    requires IsNumber(number) && IsNumber(digits) && front + "-" + number == other + "-" + digits
    ensures front == other && number == digits
  {
    SuffixOf(front, number);
    SuffixOf(other, digits);
    assert front == (front + "-" + number)[..|front|];
    assert other == (other + "-" + digits)[..|other|];
  }

  // -- one write --------------------------------------------------------------------------------

  datatype Register = Register(projects: seq<Project>, risks: seq<Risk>, file: Option<seq<Risk>>)

  /** One caller's request, and whether the file took it. */
  datatype Call = Call(project: string, title: string, severity: Severity, flushed: bool)

  function ProjectNamed(projects: seq<Project>, id: string): Option<Project> {
    if projects == [] then None else if projects[0].id == id then Some(projects[0]) else ProjectNamed(projects[1..], id)
  }

  /** The largest number a project's identifiers end in, or 0. */
  function Highest(risks: seq<Risk>, project: string): nat {
    if risks == [] then 0
    else
      var before, r := Highest(risks[..|risks| - 1], project), risks[|risks| - 1];
      if r.project == project && IsNumber(Suffix(r.id)) && Value(Suffix(r.id)) > before then Value(Suffix(r.id)) else before
  }

  function Minted(s: Register, c: Call, p: Project): Risk {
    Risk(p.prefix + "-" + Decimal(Highest(s.risks, c.project) + 1), c.project, c.title, c.severity)
  }

  datatype Done = Done(register: Register, result: Result<Risk>)

  function Create(s: Register, c: Call): Done {
    match ProjectNamed(s.projects, c.project)
    case None => Done(s, Raised)
    case Some(p) =>
      var created := Minted(s, c, p);
      if s.file.None? || !c.flushed then Done(s, Raised)
      else Done(s.(risks := s.risks + [created], file := Some(s.risks + [created])), Ok(created))
  }

  class Erp {
    const projects: seq<Project>
    var risks: seq<Risk>
    var file: Option<seq<Risk>>

    function State(): Register
      reads this
    {
      Register(projects, risks, file)
    }

    constructor (projects: seq<Project>, risks: seq<Risk>, persisted: bool)
      ensures State() == Register(projects, risks, if persisted then Some(risks) else None)
    {
      this.projects, this.risks := projects, risks;
      file := if persisted then Some(risks) else None;
    }

    /** Rewrite the file, or fail and leave it as it was. */
    method Flush(flushed: bool) returns (ok: bool)
      modifies this`file
      ensures ok == (old(file).Some? && flushed)
      ensures file == if ok then Some(risks) else old(file)
    {
      if file.None? || !flushed {
        return false;
      }
      file := Some(risks);
      ok := true;
    }

    /** Mint an identifier, append, flush; roll the append back when the flush fails. The
        caller holds the lock throughout. */
    method CreateRisk(c: Call) returns (r: Result<Risk>)
      modifies this
      ensures Done(State(), r) == Create(old(State()), c)
    {
      var project := ProjectNamed(projects, c.project);
      if project.None? {
        return Raised;
      }
      var highest: nat := 0;
      for i := 0 to |risks|
        invariant State() == old(State())
        invariant highest == Highest(risks[..i], c.project)
      {
        assert risks[..i + 1][..i] == risks[..i];
        var suffix := Suffix(risks[i].id);
        if risks[i].project == c.project && IsNumber(suffix) && Value(suffix) > highest {
          highest := Value(suffix);
        }
      }
      assert risks[..|risks|] == risks;
      var created := Risk(project.value.prefix + "-" + Decimal(highest + 1), c.project, c.title, c.severity);
      risks := risks + [created];
      var ok := Flush(c.flushed);
      if !ok {
        assert risks[..|risks| - 1] == old(risks);
        risks := risks[..|risks| - 1];
        return Raised;
      }
      r := Ok(created);
    }
  }

  // -- what every history keeps ----------------------------------------------------------------

  lemma {:induction false} HighestIsHighest(risks: seq<Risk>, project: string, r: Risk)
    requires r in risks && r.project == project && IsNumber(Suffix(r.id))
    ensures Value(Suffix(r.id)) <= Highest(risks, project)
  {
    if r != risks[|risks| - 1] {
      HighestIsHighest(risks[..|risks| - 1], project, r);
    }
  }

  /** Identifiers as this register writes them: the project's prefix, a dash, a number. */
  predicate Written(projects: seq<Project>, r: Risk) {
    && ProjectNamed(projects, r.project).Some?
    && IsNumber(Suffix(r.id)) && r.id == ProjectNamed(projects, r.project).value.prefix + "-" + Suffix(r.id)
  }

  predicate DistinctPrefixes(projects: seq<Project>) {
    forall a, b :: a in projects && b in projects && a.id != b.id ==> a.prefix != b.prefix
  }

  lemma {:induction false} NamedIsThere(projects: seq<Project>, id: string)
    ensures ProjectNamed(projects, id).Some? ==> ProjectNamed(projects, id).value in projects && ProjectNamed(projects, id).value.id == id
  {
    if projects != [] {
      NamedIsThere(projects[1..], id);
    }
  }

  /** A minted identifier is none of its project's, whatever those look like; and none of
      any other project's, when those are as the register writes them. */
  lemma MintedIsNew(s: Register, c: Call, r: Risk)
    requires ProjectNamed(s.projects, c.project).Some? && r in s.risks
    requires r.project == c.project || (DistinctPrefixes(s.projects) && Written(s.projects, r))
    ensures Minted(s, c, ProjectNamed(s.projects, c.project).value).id != r.id
  {
    var p := ProjectNamed(s.projects, c.project).value;
    var number := Decimal(Highest(s.risks, c.project) + 1);
    DecimalReads(Highest(s.risks, c.project) + 1);
    SuffixOf(p.prefix, number);
    NamedIsThere(s.projects, c.project);
    if r.project == c.project {
      if r.id == p.prefix + "-" + number {
        HighestIsHighest(s.risks, c.project, r);
      }
    } else {
      NamedIsThere(s.projects, r.project);
      if r.id == p.prefix + "-" + number {
        OneSplit(p.prefix, number, ProjectNamed(s.projects, r.project).value.prefix, Suffix(r.id));
      }
    }
  }

  function After(s: Register, calls: seq<Call>): Register
    decreases |calls|
  {
    if calls == [] then s else Create(After(s, calls[..|calls| - 1]), calls[|calls| - 1]).register
  }

  predicate UniqueIn(risks: seq<Risk>) {
    forall i, j :: 0 <= i < j < |risks| && risks[i].project == risks[j].project ==> risks[i].id != risks[j].id
  }

  predicate Unique(risks: seq<Risk>) {
    forall i, j :: 0 <= i < j < |risks| ==> risks[i].id != risks[j].id
  }

  predicate AllWritten(s: Register) { forall r :: r in s.risks ==> Written(s.projects, r) }

  lemma MintedIsWritten(s: Register, c: Call)
    requires ProjectNamed(s.projects, c.project).Some?
    ensures Written(s.projects, Minted(s, c, ProjectNamed(s.projects, c.project).value))
  {
    var p, n := ProjectNamed(s.projects, c.project).value, Highest(s.risks, c.project) + 1;
    NumberedSuffix(p.prefix, n);
    assert Minted(s, c, p).id == p.prefix + "-" + Decimal(n);
  }

  lemma NumberedSuffix(front: string, n: nat)
    ensures Suffix(front + "-" + Decimal(n)) == Decimal(n) && IsNumber(Decimal(n))
  {
    DecimalReads(n);
    SuffixOf(front, Decimal(n));
  }

  lemma AddedStaysUnique(s: Register, c: Call)
    requires ProjectNamed(s.projects, c.project).Some?
    ensures var r := Minted(s, c, ProjectNamed(s.projects, c.project).value);
            && (UniqueIn(s.risks) ==> UniqueIn(s.risks + [r]))
            && (DistinctPrefixes(s.projects) && AllWritten(s) && Unique(s.risks) ==> Unique(s.risks + [r]))
  {
    var r := Minted(s, c, ProjectNamed(s.projects, c.project).value);
    forall i | 0 <= i < |s.risks|
      ensures s.risks[i].project == c.project ==> s.risks[i].id != r.id
      ensures DistinctPrefixes(s.projects) && AllWritten(s) ==> s.risks[i].id != r.id
    {
      assert s.risks[i] in s.risks;
      if s.risks[i].project == c.project || (DistinctPrefixes(s.projects) && Written(s.projects, s.risks[i])) {
        MintedIsNew(s, c, s.risks[i]);
      }
    }
  }

  lemma OneCallKeeps(s: Register, c: Call)
    ensures var next := Create(s, c);
            && next.register.projects == s.projects
            && (next.result.Raised? ==> next.register == s)
            && (next.result.Ok? ==> next.register.risks == s.risks + [next.result.value])
            && (s.file == None || s.file == Some(s.risks) ==>
                  next.register.file == None || next.register.file == Some(next.register.risks))
            && (UniqueIn(s.risks) ==> UniqueIn(next.register.risks))
            && (DistinctPrefixes(s.projects) && AllWritten(s) && Unique(s.risks) ==>
                  AllWritten(next.register) && Unique(next.register.risks))
  {
    if ProjectNamed(s.projects, c.project).Some? {
      MintedIsWritten(s, c);
      AddedStaysUnique(s, c);
    }
  }

  /** Over every history of calls, in whatever order they got the lock and whichever of
      them failed to reach the file: the risks on record are those there were and those
      reported as recorded, the file and the list agree, no identifier is minted twice in
      a project, nor, with distinct prefixes, in the whole register. */
  lemma {:induction false} EveryHistoryKeepsTheRegister(s: Register, calls: seq<Call>)
    requires s.file == None || s.file == Some(s.risks)
    ensures var last := After(s, calls);
            && last.projects == s.projects
            && (last.file == None || last.file == Some(last.risks))
            && |s.risks| <= |last.risks| && last.risks[..|s.risks|] == s.risks
            && (UniqueIn(s.risks) ==> UniqueIn(last.risks))
            && (DistinctPrefixes(s.projects) && AllWritten(s) && Unique(s.risks) ==> AllWritten(last) && Unique(last.risks))
    decreases |calls|
  {
    if calls != [] {
      EveryHistoryKeepsTheRegister(s, calls[..|calls| - 1]);
      OneCallKeeps(After(s, calls[..|calls| - 1]), calls[|calls| - 1]);
    }
  }
}
