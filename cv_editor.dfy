/** The CV editor's document controller and its basics, education, skills
    and languages forms. The controller replaces whole sections and appends
    empty entries; the forms copy a section's list and write one field of
    one entry of the copy. */
module CvEditor {
  import opened CvTypes
  import opened ListUtils
  import opened Text

  /** The sections the editor's own CV record has (it has no portfolio). */
  datatype Section = BasicsSection | WorkSection | EducationSection | SkillsSection | LanguagesSection

  /** The content of one section. */
  datatype SectionData =
    | BasicsData(basics: Basics)
    | WorkData(work: seq<Work>)
    | EducationData(education: seq<Education>)
    | SkillsData(skills: seq<Skill>)
    | LanguagesData(languages: seq<Language>)

  function SectionOf(d: SectionData): Section {
    match d
    case BasicsData(_) => BasicsSection
    case WorkData(_) => WorkSection
    case EducationData(_) => EducationSection
    case SkillsData(_) => SkillsSection
    case LanguagesData(_) => LanguagesSection
  }

  /** `cv[section]`. */
  function Get(cv: CV, s: Section): (d: SectionData)
    ensures SectionOf(d) == s
  {
    match s
    case BasicsSection => BasicsData(cv.basics)
    case WorkSection => WorkData(cv.work)
    case EducationSection => EducationData(cv.education)
    case SkillsSection => SkillsData(cv.skills)
    case LanguagesSection => LanguagesData(cv.languages)
  }

  /** The editor's empty document. */
  function InitialCV(): (cv: CV)
    ensures cv.basics.profiles == [] && cv.work == [] && cv.education == []
    ensures cv.skills == [] && cv.languages == [] && cv.portfolio == []
    ensures cv.basics.name == "" && cv.basics.labelText == "" && cv.basics.email == ""
    ensures cv.basics.summary == "" && cv.basics.location == Location("", "")
  {
    CV(Basics("", "", "", "", Location("", ""), []), [], [], [], [], [])
  }

  /** `updateCV(section, data)`: the named section now holds `data`; every
      other section, and the portfolio, is as before. */
  function UpdateCV(cv: CV, d: SectionData): (r: CV)
    ensures Get(r, SectionOf(d)) == d
    ensures forall s :: s != SectionOf(d) ==> Get(r, s) == Get(cv, s)
    ensures r.portfolio == cv.portfolio
  {
    match d
    case BasicsData(b) => cv.(basics := b)
    case WorkData(w) => cv.(work := w)
    case EducationData(e) => cv.(education := e)
    case SkillsData(k) => cv.(skills := k)
    case LanguagesData(l) => cv.(languages := l)
  }

  /** Writing back what a section holds changes nothing. */
  lemma UpdateCVGetPut(cv: CV, s: Section)
    ensures UpdateCV(cv, Get(cv, s)) == cv
  {
    var r := UpdateCV(cv, Get(cv, s));
    forall t
      ensures Get(r, t) == Get(cv, t)
    {
    }
    SameSectionsSameCV(r, cv);
  }

  /** Two documents that agree on every section and on the portfolio are
      the same document. */
  lemma SameSectionsSameCV(a: CV, b: CV)
    requires forall s :: Get(a, s) == Get(b, s)
    requires a.portfolio == b.portfolio
    ensures a == b
  {
    assert Get(a, BasicsSection) == Get(b, BasicsSection);
    assert Get(a, WorkSection) == Get(b, WorkSection);
    assert Get(a, EducationSection) == Get(b, EducationSection);
    assert Get(a, SkillsSection) == Get(b, SkillsSection);
    assert Get(a, LanguagesSection) == Get(b, LanguagesSection);
  }

  /** A second update of the same section overrides the first. */
  lemma UpdateCVTwice(cv: CV, d1: SectionData, d2: SectionData)
    requires SectionOf(d1) == SectionOf(d2)
    ensures UpdateCV(UpdateCV(cv, d1), d2) == UpdateCV(cv, d2)
  {
    var a, b := UpdateCV(UpdateCV(cv, d1), d2), UpdateCV(cv, d2);
    forall s
      ensures Get(a, s) == Get(b, s)
    {
    }
    SameSectionsSameCV(a, b);
  }

  /** One entry of a list section. */
  datatype Item =
    | WorkItem(work: Work)
    | EducationItem(education: Education)
    | SkillItem(skill: Skill)
    | LanguageItem(language: Language)

  /** The entries of a list section, in order; the basics section holds
      none. */
  function Items(d: SectionData): (r: seq<Item>)
    ensures d.WorkData? ==> |r| == |d.work| && forall i :: 0 <= i < |r| ==> r[i] == WorkItem(d.work[i])
    ensures d.EducationData? ==> |r| == |d.education| && forall i :: 0 <= i < |r| ==> r[i] == EducationItem(d.education[i])
    ensures d.SkillsData? ==> |r| == |d.skills| && forall i :: 0 <= i < |r| ==> r[i] == SkillItem(d.skills[i])
    ensures d.LanguagesData? ==> |r| == |d.languages| && forall i :: 0 <= i < |r| ==> r[i] == LanguageItem(d.languages[i])
  {
    match d
    case BasicsData(_) => []
    case WorkData(w) => seq(|w|, i requires 0 <= i < |w| => WorkItem(w[i]))
    case EducationData(e) => seq(|e|, i requires 0 <= i < |e| => EducationItem(e[i]))
    case SkillsData(k) => seq(|k|, i requires 0 <= i < |k| => SkillItem(k[i]))
    case LanguagesData(l) => seq(|l|, i requires 0 <= i < |l| => LanguageItem(l[i]))
  }

  /** `getEmptyItem(section)`: an entry of the section's kind whose text
      fields are empty; the empty work and education entries have no end
      date, and the empty work and skill entries have no highlights or
      keywords. */
  function GetEmptyItem(s: Section): (it: Item)
    requires s != BasicsSection
    ensures s == WorkSection ==>
              && it.WorkItem? && it.work.endDate.None? && it.work.highlights == []
              && it.work.company == it.work.position == it.work.startDate == it.work.summary == ""
    ensures s == EducationSection ==>
              && it.EducationItem? && it.education.endDate.None?
              && it.education.institution == it.education.area == it.education.studyType == it.education.startDate == ""
    ensures s == SkillsSection ==> it.SkillItem? && it.skill == Skill("", "", [])
    ensures s == LanguagesSection ==> it.LanguageItem? && it.language == Language("", "")
  {
    match s
    case WorkSection => WorkItem(Work("", "", "", None, "", []))
    case EducationSection => EducationItem(Education("", "", "", "", None))
    case SkillsSection => SkillItem(Skill("", "", []))
    case LanguagesSection => LanguageItem(Language("", ""))
  }

  /** `addItem(section)`: the section gains the section's empty entry at its
      end; its other entries, every other section and the portfolio are as
      before. */
  function AddItem(cv: CV, s: Section): (r: CV)
    requires s != BasicsSection
    ensures Items(Get(r, s)) == Items(Get(cv, s)) + [GetEmptyItem(s)]
    ensures forall t :: t != s ==> Get(r, t) == Get(cv, t)
    ensures r.portfolio == cv.portfolio
  {
    var it := GetEmptyItem(s);
    var r := match s
      case WorkSection => cv.(work := cv.work + [it.work])
      case EducationSection => cv.(education := cv.education + [it.education])
      case SkillsSection => cv.(skills := cv.skills + [it.skill])
      case LanguagesSection => cv.(languages := cv.languages + [it.language]);
    assert Items(Get(r, s)) == Items(Get(cv, s)) + [it];
    r
  }

  /** Removing the entry `addItem` appended gives back the section's
      entries. */
  lemma AddItemThenRemoveLast(cv: CV, s: Section)
    requires s != BasicsSection
    ensures RemoveItem(Items(Get(AddItem(cv, s), s)), |Items(Get(cv, s))|) == Items(Get(cv, s))
  {
    var before := Items(Get(cv, s));
    assert (before + [GetEmptyItem(s)])[..|before|] == before;
  }

  // ---------------------------------------------------------------------
  // Basics form

  /** The text fields of the basics form; `City` and `Country` are the
      fields of the nested location. */
  datatype BasicsField = Name | LabelText | Email | Summary | City | Country

  function BasicsValue(b: Basics, f: BasicsField): string {
    match f
    case Name => b.name
    case LabelText => b.labelText
    case Email => b.email
    case Summary => b.summary
    case City => b.location.city
    case Country => b.location.country
  }

  /** `updateData({ ...data, name: value })` and the like: the field holds
      the new text; every other field and the profiles are as before. */
  function SetBasicsField(b: Basics, f: BasicsField, v: string): (r: Basics)
    ensures BasicsValue(r, f) == v
    ensures forall g :: g != f ==> BasicsValue(r, g) == BasicsValue(b, g)
    ensures r.profiles == b.profiles
  {
    match f
    case Name => b.(name := v)
    case LabelText => b.(labelText := v)
    case Email => b.(email := v)
    case Summary => b.(summary := v)
    case City => b.(location := b.location.(city := v))
    case Country => b.(location := b.location.(country := v))
  }

  /** `addProfile`: one empty profile more, at the end. */
  function AddProfile(b: Basics): (r: Basics)
    ensures |r.profiles| == |b.profiles| + 1 && r.profiles[..|b.profiles|] == b.profiles
    ensures r.profiles[|b.profiles|] == Profile("", "")
    ensures forall g :: BasicsValue(r, g) == BasicsValue(b, g)
  {
    b.(profiles := b.profiles + [Profile("", "")])
  }

  /** `removeProfile`: the profile at `index` is dropped, the others keep
      their order. */
  function RemoveProfile(b: Basics, index: int): (r: Basics)
    ensures 0 <= index < |b.profiles| ==> r.profiles == b.profiles[..index] + b.profiles[index + 1..]
    ensures !(0 <= index < |b.profiles|) ==> r == b
    ensures forall g :: BasicsValue(r, g) == BasicsValue(b, g)
  {
    b.(profiles := RemoveItem(b.profiles, index))
  }

  /** `moveProfileUp`: swaps a profile with the one before it. */
  function MoveProfileUp(b: Basics, index: nat): (r: Basics)
    requires index < |b.profiles|
    ensures multiset(r.profiles) == multiset(b.profiles)
    ensures index == 0 ==> r == b
    ensures 0 < index ==> r.profiles == b.profiles[index - 1 := b.profiles[index]][index := b.profiles[index - 1]]
    ensures forall g :: BasicsValue(r, g) == BasicsValue(b, g)
  {
    b.(profiles := MoveItemUp(b.profiles, index))
  }

  /** `moveProfileDown`: swaps a profile with the one after it. */
  function MoveProfileDown(b: Basics, index: nat): (r: Basics)
    requires index < |b.profiles|
    ensures multiset(r.profiles) == multiset(b.profiles)
    ensures index == |b.profiles| - 1 ==> r == b
    ensures index < |b.profiles| - 1 ==> r.profiles == b.profiles[index := b.profiles[index + 1]][index + 1 := b.profiles[index]]
    ensures forall g :: BasicsValue(r, g) == BasicsValue(b, g)
  {
    b.(profiles := MoveItemDown(b.profiles, index))
  }

  datatype ProfileField = Network | Url

  function ProfileValue(p: Profile, f: ProfileField): string {
    match f
    case Network => p.network
    case Url => p.url
  }

  function SetProfileField(p: Profile, f: ProfileField, v: string): (r: Profile)
    ensures ProfileValue(r, f) == v
    ensures forall g :: g != f ==> ProfileValue(r, g) == ProfileValue(p, g)
  {
    match f
    case Network => p.(network := v)
    case Url => p.(url := v)
  }

  /** The profile inputs: copy the profiles, write one field of profile
      `index` of the copy, store the copy. */
  method EditProfile(b: Basics, index: nat, f: ProfileField, v: string) returns (r: Basics)
    requires index < |b.profiles|
    ensures |r.profiles| == |b.profiles|
    ensures ProfileValue(r.profiles[index], f) == v
    ensures forall g :: g != f ==> ProfileValue(r.profiles[index], g) == ProfileValue(b.profiles[index], g)
    ensures forall j :: 0 <= j < |b.profiles| && j != index ==> r.profiles[j] == b.profiles[j]
    ensures forall g :: BasicsValue(r, g) == BasicsValue(b, g)
  {
    var profiles := ReplaceAt(b.profiles, index, SetProfileField(b.profiles[index], f, v));
    r := b.(profiles := profiles);
  }

  // ---------------------------------------------------------------------
  // Education, skills and languages forms

  datatype EducationField = Institution | Area | StudyType | StartDate | EndDate

  /** A field's value; only the end date can be absent. */
  function EducationValue(e: Education, f: EducationField): Option<string> {
    match f
    case Institution => Some(e.institution)
    case Area => Some(e.area)
    case StudyType => Some(e.studyType)
    case StartDate => Some(e.startDate)
    case EndDate => e.endDate
  }

  /** Assigning a field; an assigned end date is present, even when empty. */
  function SetEducationField(e: Education, f: EducationField, v: string): (r: Education)
    ensures EducationValue(r, f) == Some(v)
    ensures forall g :: g != f ==> EducationValue(r, g) == EducationValue(e, g)
  {
    match f
    case Institution => e.(institution := v)
    case Area => e.(area := v)
    case StudyType => e.(studyType := v)
    case StartDate => e.(startDate := v)
    case EndDate => e.(endDate := Some(v))
  }

  /** The education inputs: `newData[index].field = value` on a copy of the
      list. */
  method EditEducation(data: seq<Education>, index: nat, f: EducationField, v: string) returns (r: seq<Education>)
    requires index < |data|
    ensures |r| == |data|
    ensures EducationValue(r[index], f) == Some(v)
    ensures forall g :: g != f ==> EducationValue(r[index], g) == EducationValue(data[index], g)
    ensures forall j :: 0 <= j < |data| && j != index ==> r[j] == data[j]
  {
    r := ReplaceAt(data, index, SetEducationField(data[index], f, v));
  }

  datatype SkillField = SkillName | Level

  function SkillValue(k: Skill, f: SkillField): string {
    match f
    case SkillName => k.name
    case Level => k.level
  }

  function SetSkillField(k: Skill, f: SkillField, v: string): (r: Skill)
    ensures SkillValue(r, f) == v
    ensures forall g :: g != f ==> SkillValue(r, g) == SkillValue(k, g)
    ensures r.keywords == k.keywords
  {
    match f
    case SkillName => k.(name := v)
    case Level => k.(level := v)
  }

  /** The skill name and level inputs. */
  method EditSkill(data: seq<Skill>, index: nat, f: SkillField, v: string) returns (r: seq<Skill>)
    requires index < |data|
    ensures |r| == |data|
    ensures SkillValue(r[index], f) == v
    ensures forall g :: g != f ==> SkillValue(r[index], g) == SkillValue(data[index], g)
    ensures r[index].keywords == data[index].keywords
    ensures forall j :: 0 <= j < |data| && j != index ==> r[j] == data[j]
  {
    r := ReplaceAt(data, index, SetSkillField(data[index], f, v));
  }

  /** The keywords input: the text is split at every comma and each piece
      trimmed; there is one keyword more than the text has commas, none
      holds a comma or surrounding whitespace, and name and level are kept. */
  method EditKeywords(data: seq<Skill>, index: nat, text: string) returns (r: seq<Skill>)
    requires index < |data|
    ensures |r| == |data|
    ensures r[index].keywords == CommaList(text)
    ensures |r[index].keywords| == multiset(text)[','] + 1
    ensures forall i :: 0 <= i < |r[index].keywords| ==> ',' !in r[index].keywords[i]
    ensures r[index].name == data[index].name && r[index].level == data[index].level
    ensures forall j :: 0 <= j < |data| && j != index ==> r[j] == data[j]
  {
    CommaListShape(text);
    r := ReplaceAt(data, index, data[index].(keywords := CommaList(text)));
  }

  /** The keywords input shows `keywords.join(', ')`; reading that text back
      gives the same keywords, provided there is at least one and each is
      comma-free and trimmed. */
  lemma KeywordsShownReadBack(k: Skill)
    requires |k.keywords| >= 1
    requires forall i :: 0 <= i < |k.keywords| ==> ',' !in k.keywords[i] && Trim(k.keywords[i]) == k.keywords[i]
    ensures CommaList(Join(k.keywords, ", ")) == k.keywords
  {
    CommaListJoin(k.keywords);
  }

  datatype LanguageField = LanguageName | Fluency

  function LanguageValue(l: Language, f: LanguageField): string {
    match f
    case LanguageName => l.language
    case Fluency => l.fluency
  }

  function SetLanguageField(l: Language, f: LanguageField, v: string): (r: Language)
    ensures LanguageValue(r, f) == v
    ensures forall g :: g != f ==> LanguageValue(r, g) == LanguageValue(l, g)
  {
    match f
    case LanguageName => l.(language := v)
    case Fluency => l.(fluency := v)
  }

  /** The language and fluency inputs. */
  method EditLanguage(data: seq<Language>, index: nat, f: LanguageField, v: string) returns (r: seq<Language>)
    requires index < |data|
    ensures |r| == |data|
    ensures LanguageValue(r[index], f) == v
    ensures forall g :: g != f ==> LanguageValue(r[index], g) == LanguageValue(data[index], g)
    ensures forall j :: 0 <= j < |data| && j != index ==> r[j] == data[j]
  {
    r := ReplaceAt(data, index, SetLanguageField(data[index], f, v));
  }
}
