/** The portfolio form: one portfolio entry is edited by replacing one of
    its fields (`updateItem`), and its images, links, collaborators and
    process steps are lists edited through that same replacement. */
module PortfolioEditor {
  import opened CvTypes
  import opened ListUtils
  import opened Text

  /** The fields of a portfolio entry. */
  datatype PortfolioKey =
    | Title | Description | Category | Date | CoverImage | Images | Tools
    | Tags | Links | Collaborators | StatsKey | Featured | ProcessSteps

  /** The values `updateItem` may store. */
  datatype PortfolioValue =
    | TextValue(text: string)
    | FlagValue(flag: bool)
    | ImagesValue(images: seq<Image>)
    | StringsValue(strings: seq<string>)
    | LinksValue(links: seq<Link>)
    | CollaboratorsValue(collaborators: seq<Collaborator>)
    | StatsValue(stats: Stats)
    | StepsValue(steps: seq<ProcessStep>)

  /** Whether a value has the shape of the field it is stored in. */
  predicate Fits(k: PortfolioKey, v: PortfolioValue) {
    match k
    case Title | Description | Category | Date | CoverImage => v.TextValue?
    case Images => v.ImagesValue?
    case Tools | Tags => v.StringsValue?
    case Links => v.LinksValue?
    case Collaborators => v.CollaboratorsValue?
    case StatsKey => v.StatsValue?
    case Featured => v.FlagValue?
    case ProcessSteps => v.StepsValue?
  }

  /** `item[key]`; the optional fields read as absent when missing. */
  function GetField(item: PortfolioItem, k: PortfolioKey): (r: Option<PortfolioValue>)
    ensures r.Some? ==> Fits(k, r.value)
  {
    match k
    case Title => Some(TextValue(item.title))
    case Description => Some(TextValue(item.description))
    case Category => Some(TextValue(item.category))
    case Date => Some(TextValue(item.date))
    case CoverImage => Some(TextValue(item.coverImage))
    case Images => Some(ImagesValue(item.images))
    case Tools => Some(StringsValue(item.tools))
    case Tags => Some(StringsValue(item.tags))
    case Links => Some(LinksValue(item.links))
    case Collaborators => if item.collaborators.Some? then Some(CollaboratorsValue(item.collaborators.value)) else None
    case StatsKey => if item.stats.Some? then Some(StatsValue(item.stats.value)) else None
    case Featured => Some(FlagValue(item.featured))
    case ProcessSteps => if item.processSteps.Some? then Some(StepsValue(item.processSteps.value)) else None
  }

  /** `{ ...item, [key]: value }`: the field reads as the new value and
      every other field as before. */
  function SetField(item: PortfolioItem, k: PortfolioKey, v: PortfolioValue): (r: PortfolioItem)
    requires Fits(k, v)
    ensures GetField(r, k) == Some(v)
    ensures forall k' :: k' != k ==> GetField(r, k') == GetField(item, k')
  {
    match k
    case Title => item.(title := v.text)
    case Description => item.(description := v.text)
    case Category => item.(category := v.text)
    case Date => item.(date := v.text)
    case CoverImage => item.(coverImage := v.text)
    case Images => item.(images := v.images)
    case Tools => item.(tools := v.strings)
    case Tags => item.(tags := v.strings)
    case Links => item.(links := v.links)
    case Collaborators => item.(collaborators := Some(v.collaborators))
    case StatsKey => item.(stats := Some(v.stats))
    case Featured => item.(featured := v.flag)
    case ProcessSteps => item.(processSteps := Some(v.steps))
  }

  /** An entry is determined by what its fields read as. */
  lemma FieldsDetermineItem(a: PortfolioItem, b: PortfolioItem)
    requires forall k :: GetField(a, k) == GetField(b, k)
    ensures a == b
  {
    assert a.title == b.title by { assert GetField(a, Title) == GetField(b, Title); }
    assert a.description == b.description by { assert GetField(a, Description) == GetField(b, Description); }
    assert a.category == b.category by { assert GetField(a, Category) == GetField(b, Category); }
    assert a.date == b.date by { assert GetField(a, Date) == GetField(b, Date); }
    assert a.coverImage == b.coverImage by { assert GetField(a, CoverImage) == GetField(b, CoverImage); }
    assert a.images == b.images by { assert GetField(a, Images) == GetField(b, Images); }
    assert a.tools == b.tools by { assert GetField(a, Tools) == GetField(b, Tools); }
    assert a.tags == b.tags by { assert GetField(a, Tags) == GetField(b, Tags); }
    assert a.links == b.links by { assert GetField(a, Links) == GetField(b, Links); }
    assert a.collaborators == b.collaborators by { assert GetField(a, Collaborators) == GetField(b, Collaborators); }
    assert a.stats == b.stats by { assert GetField(a, StatsKey) == GetField(b, StatsKey); }
    assert a.featured == b.featured by { assert GetField(a, Featured) == GetField(b, Featured); }
    assert a.processSteps == b.processSteps by { assert GetField(a, ProcessSteps) == GetField(b, ProcessSteps); }
  }

  /** Storing the value a field already holds changes nothing, and a second
      store into the same field overrides the first. */
  lemma SetFieldLaws(item: PortfolioItem, k: PortfolioKey, v: PortfolioValue, w: PortfolioValue)
    requires Fits(k, v) && Fits(k, w)
    ensures GetField(item, k) == Some(v) ==> SetField(item, k, v) == item
    ensures SetField(SetField(item, k, v), k, w) == SetField(item, k, w)
  {
    if GetField(item, k) == Some(v) {
      FieldsDetermineItem(SetField(item, k, v), item);
    }
    FieldsDetermineItem(SetField(SetField(item, k, v), k, w), SetField(item, k, w));
  }

  /** `updateItem(key, value)` of entry `index`: only that field of that
      entry changes; the list keeps its length. */
  function UpdateItem(data: seq<PortfolioItem>, index: nat, k: PortfolioKey, v: PortfolioValue): (r: seq<PortfolioItem>)
    requires index < |data| && Fits(k, v)
    ensures |r| == |data|
    ensures GetField(r[index], k) == Some(v)
    ensures forall k' :: k' != k ==> GetField(r[index], k') == GetField(data[index], k')
    ensures forall j :: 0 <= j < |data| && j != index ==> r[j] == data[j]
  {
    data[index := SetField(data[index], k, v)]
  }

  /** `removeItem`, `moveItemUp` and `moveItemDown` of the portfolio list:
      removal closes the gap, a move swaps two neighbours, and the first and
      last entries do not move past the ends. */
  lemma PortfolioListOperations(data: seq<PortfolioItem>, index: nat)
    requires index < |data|
    ensures forall j :: 0 <= j < index ==> RemoveItem(data, index)[j] == data[j]
    ensures forall j :: index <= j < |data| - 1 ==> RemoveItem(data, index)[j] == data[j + 1]
    ensures MoveItemUp(data, 0) == data && MoveItemDown(data, |data| - 1) == data
    ensures 0 < index ==> MoveItemUp(data, index)[index - 1] == data[index] && MoveItemUp(data, index)[index] == data[index - 1]
    ensures index < |data| - 1 ==> MoveItemDown(data, index)[index + 1] == data[index] && MoveItemDown(data, index)[index] == data[index + 1]
  {
    var r := RemoveItem(data, index);
    assert r == data[..index] + data[index + 1..];
    assert |r| == |data| - 1;
    forall j | index <= j < |data| - 1
      ensures r[j] == data[j + 1]
    {
      assert r[j] == data[index + 1..][j - index];
    }
  }

  // ---------------------------------------------------------------------
  // Images

  datatype ImageField = ImageUrl | Caption

  function ImageValue(m: Image, f: ImageField): Option<string> {
    match f
    case ImageUrl => Some(m.url)
    case Caption => m.caption
  }

  function SetImageField(m: Image, f: ImageField, v: string): (r: Image)
    ensures ImageValue(r, f) == Some(v)
    ensures forall g :: g != f ==> ImageValue(r, g) == ImageValue(m, g)
  {
    match f
    case ImageUrl => m.(url := v)
    case Caption => m.(caption := Some(v))
  }

  /** `addImage`: an image with empty URL and empty caption at the end. */
  function AddImage(item: PortfolioItem): (r: PortfolioItem)
    ensures r.images == item.images + [Image("", Some(""))]
    ensures forall k :: k != Images ==> GetField(r, k) == GetField(item, k)
  {
    SetField(item, Images, ImagesValue(item.images + [Image("", Some(""))]))
  }

  /** `updateImage`: one field of image `j` changes. */
  function UpdateImage(item: PortfolioItem, j: nat, f: ImageField, v: string): (r: PortfolioItem)
    requires j < |item.images|
    ensures |r.images| == |item.images|
    ensures ImageValue(r.images[j], f) == Some(v)
    ensures forall g :: g != f ==> ImageValue(r.images[j], g) == ImageValue(item.images[j], g)
    ensures forall i :: 0 <= i < |item.images| && i != j ==> r.images[i] == item.images[i]
    ensures forall k :: k != Images ==> GetField(r, k) == GetField(item, k)
  {
    SetField(item, Images, ImagesValue(item.images[j := SetImageField(item.images[j], f, v)]))
  }

  /** `removeImage`: image `j` is dropped, the others keep their order. */
  function RemoveImage(item: PortfolioItem, j: int): (r: PortfolioItem)
    ensures 0 <= j < |item.images| ==> r.images == item.images[..j] + item.images[j + 1..]
    ensures !(0 <= j < |item.images|) ==> r.images == item.images
    ensures forall k :: k != Images ==> GetField(r, k) == GetField(item, k)
  {
    SetField(item, Images, ImagesValue(RemoveItem(item.images, j)))
  }

  // ---------------------------------------------------------------------
  // Links

  /** An edit of one link: its kind (from the five-way selector), its URL or
      its label. */
  datatype LinkEdit = SetKind(kind: LinkKind) | SetUrl(url: string) | SetLabel(labelText: string)

  function ApplyLinkEdit(l: Link, e: LinkEdit): (r: Link)
    ensures e.SetKind? ==> r == l.(kind := e.kind)
    ensures e.SetUrl? ==> r.url == e.url && r.kind == l.kind && r.labelText == l.labelText
    ensures e.SetLabel? ==> r.labelText == Some(e.labelText) && r.kind == l.kind && r.url == l.url
  {
    match e
    case SetKind(k) => l.(kind := k)
    case SetUrl(u) => l.(url := u)
    case SetLabel(s) => l.(labelText := Some(s))
  }

  /** `addLink`: a link of kind "other" with empty URL and empty label. */
  function AddLink(item: PortfolioItem): (r: PortfolioItem)
    ensures r.links == item.links + [Link(Other, "", Some(""))]
    ensures forall k :: k != Links ==> GetField(r, k) == GetField(item, k)
  {
    SetField(item, Links, LinksValue(item.links + [Link(Other, "", Some(""))]))
  }

  /** `updateLink`: link `j` is edited, the others are kept. */
  function UpdateLink(item: PortfolioItem, j: nat, e: LinkEdit): (r: PortfolioItem)
    requires j < |item.links|
    ensures |r.links| == |item.links| && r.links[j] == ApplyLinkEdit(item.links[j], e)
    ensures forall i :: 0 <= i < |item.links| && i != j ==> r.links[i] == item.links[i]
    ensures forall k :: k != Links ==> GetField(r, k) == GetField(item, k)
  {
    SetField(item, Links, LinksValue(item.links[j := ApplyLinkEdit(item.links[j], e)]))
  }

  /** `removeLink`: link `j` is dropped, the others keep their order. */
  function RemoveLink(item: PortfolioItem, j: int): (r: PortfolioItem)
    ensures 0 <= j < |item.links| ==> r.links == item.links[..j] + item.links[j + 1..]
    ensures !(0 <= j < |item.links|) ==> r.links == item.links
    ensures forall k :: k != Links ==> GetField(r, k) == GetField(item, k)
  {
    SetField(item, Links, LinksValue(RemoveItem(item.links, j)))
  }

  // ---------------------------------------------------------------------
  // Collaborators and process steps, both optional lists

  /** `list || []`: an absent list reads as empty. */
  function OrEmpty<T>(o: Option<seq<T>>): (r: seq<T>)
    ensures o.Some? ==> r == o.value
    ensures o.None? ==> r == []
  {
    if o.Some? then o.value else []
  }

  datatype CollaboratorField = CollaboratorName | Role | CollaboratorUrl

  function CollaboratorValue(c: Collaborator, f: CollaboratorField): Option<string> {
    match f
    case CollaboratorName => Some(c.name)
    case Role => Some(c.role)
    case CollaboratorUrl => c.url
  }

  function SetCollaboratorField(c: Collaborator, f: CollaboratorField, v: string): (r: Collaborator)
    ensures CollaboratorValue(r, f) == Some(v)
    ensures forall g :: g != f ==> CollaboratorValue(r, g) == CollaboratorValue(c, g)
  {
    match f
    case CollaboratorName => c.(name := v)
    case Role => c.(role := v)
    case CollaboratorUrl => c.(url := Some(v))
  }

  /** `addCollaborator`: the list, or an empty one when there is none, gains
      a collaborator with empty name, role and URL. */
  function AddCollaborator(item: PortfolioItem): (r: PortfolioItem)
    ensures r.collaborators.Some?
    ensures |r.collaborators.value| == |OrEmpty(item.collaborators)| + 1
    ensures r.collaborators.value[..|OrEmpty(item.collaborators)|] == OrEmpty(item.collaborators)
    ensures r.collaborators.value[|OrEmpty(item.collaborators)|] == Collaborator("", "", Some(""))
    ensures forall k :: k != Collaborators ==> GetField(r, k) == GetField(item, k)
  {
    var list := OrEmpty(item.collaborators) + [Collaborator("", "", Some(""))];
    assert list[..|OrEmpty(item.collaborators)|] == OrEmpty(item.collaborators);
    SetField(item, Collaborators, CollaboratorsValue(list))
  }

  /** `updateCollaborator`: one field of collaborator `j` changes. */
  function UpdateCollaborator(item: PortfolioItem, j: nat, f: CollaboratorField, v: string): (r: PortfolioItem)
    requires j < |OrEmpty(item.collaborators)|
    ensures r.collaborators.Some? && |r.collaborators.value| == |OrEmpty(item.collaborators)|
    ensures CollaboratorValue(r.collaborators.value[j], f) == Some(v)
    ensures forall g :: g != f ==> CollaboratorValue(r.collaborators.value[j], g) == CollaboratorValue(item.collaborators.value[j], g)
    ensures forall i :: 0 <= i < |item.collaborators.value| && i != j ==> r.collaborators.value[i] == item.collaborators.value[i]
    ensures forall k :: k != Collaborators ==> GetField(r, k) == GetField(item, k)
  {
    var list := OrEmpty(item.collaborators);
    SetField(item, Collaborators, CollaboratorsValue(list[j := SetCollaboratorField(list[j], f, v)]))
  }

  /** `removeCollaborator`: collaborator `j` is dropped; the field is
      present afterwards even when it was absent before. */
  function RemoveCollaborator(item: PortfolioItem, j: int): (r: PortfolioItem)
    ensures r.collaborators == Some(RemoveItem(OrEmpty(item.collaborators), j))
    ensures 0 <= j < |OrEmpty(item.collaborators)| ==> |r.collaborators.value| == |OrEmpty(item.collaborators)| - 1
    ensures forall k :: k != Collaborators ==> GetField(r, k) == GetField(item, k)
  {
    SetField(item, Collaborators, CollaboratorsValue(RemoveItem(OrEmpty(item.collaborators), j)))
  }

  datatype StepField = StepTitle | StepDescription | StepImage

  function StepValue(s: ProcessStep, f: StepField): Option<string> {
    match f
    case StepTitle => Some(s.title)
    case StepDescription => Some(s.description)
    case StepImage => s.image
  }

  function SetStepField(s: ProcessStep, f: StepField, v: string): (r: ProcessStep)
    ensures StepValue(r, f) == Some(v)
    ensures forall g :: g != f ==> StepValue(r, g) == StepValue(s, g)
  {
    match f
    case StepTitle => s.(title := v)
    case StepDescription => s.(description := v)
    case StepImage => s.(image := Some(v))
  }

  /** `addProcessStep`: the steps, or an empty list when there are none, gain
      a step with empty title, description and image. */
  function AddProcessStep(item: PortfolioItem): (r: PortfolioItem)
    ensures r.processSteps.Some?
    ensures |r.processSteps.value| == |OrEmpty(item.processSteps)| + 1
    ensures r.processSteps.value[..|OrEmpty(item.processSteps)|] == OrEmpty(item.processSteps)
    ensures r.processSteps.value[|OrEmpty(item.processSteps)|] == ProcessStep("", "", Some(""))
    ensures forall k :: k != ProcessSteps ==> GetField(r, k) == GetField(item, k)
  {
    var list := OrEmpty(item.processSteps) + [ProcessStep("", "", Some(""))];
    assert list[..|OrEmpty(item.processSteps)|] == OrEmpty(item.processSteps);
    SetField(item, ProcessSteps, StepsValue(list))
  }

  /** `updateProcessStep`: one field of step `j` changes. */
  function UpdateProcessStep(item: PortfolioItem, j: nat, f: StepField, v: string): (r: PortfolioItem)
    requires j < |OrEmpty(item.processSteps)|
    ensures r.processSteps.Some? && |r.processSteps.value| == |OrEmpty(item.processSteps)|
    ensures StepValue(r.processSteps.value[j], f) == Some(v)
    ensures forall g :: g != f ==> StepValue(r.processSteps.value[j], g) == StepValue(item.processSteps.value[j], g)
    ensures forall i :: 0 <= i < |item.processSteps.value| && i != j ==> r.processSteps.value[i] == item.processSteps.value[i]
    ensures forall k :: k != ProcessSteps ==> GetField(r, k) == GetField(item, k)
  {
    var list := OrEmpty(item.processSteps);
    SetField(item, ProcessSteps, StepsValue(list[j := SetStepField(list[j], f, v)]))
  }

  /** `removeProcessStep`: step `j` is dropped; the field is present
      afterwards even when it was absent before. */
  function RemoveProcessStep(item: PortfolioItem, j: int): (r: PortfolioItem)
    ensures r.processSteps == Some(RemoveItem(OrEmpty(item.processSteps), j))
    ensures 0 <= j < |OrEmpty(item.processSteps)| ==> |r.processSteps.value| == |OrEmpty(item.processSteps)| - 1
    ensures forall k :: k != ProcessSteps ==> GetField(r, k) == GetField(item, k)
  {
    SetField(item, ProcessSteps, StepsValue(RemoveItem(OrEmpty(item.processSteps), j)))
  }

  // ---------------------------------------------------------------------
  // Tools, tags and statistics

  /** The tools input: the comma-separated pieces of the text, trimmed; one
      more than the text has commas, none holding a comma. */
  function EditTools(item: PortfolioItem, text: string): (r: PortfolioItem)
    ensures r.tools == CommaList(text)
    ensures |r.tools| == multiset(text)[','] + 1
    ensures forall i :: 0 <= i < |r.tools| ==> ',' !in r.tools[i] && Trim(r.tools[i]) == r.tools[i]
    ensures forall k :: k != Tools ==> GetField(r, k) == GetField(item, k)
  {
    CommaListShape(text);
    SetField(item, Tools, StringsValue(CommaList(text)))
  }

  /** The tags input, read like the tools input. */
  function EditTags(item: PortfolioItem, text: string): (r: PortfolioItem)
    ensures r.tags == CommaList(text)
    ensures |r.tags| == multiset(text)[','] + 1
    ensures forall i :: 0 <= i < |r.tags| ==> ',' !in r.tags[i] && Trim(r.tags[i]) == r.tags[i]
    ensures forall k :: k != Tags ==> GetField(r, k) == GetField(item, k)
  {
    CommaListShape(text);
    SetField(item, Tags, StringsValue(CommaList(text)))
  }

  /** Clearing the tools or tags input stores one empty entry, not an empty
      list. */
  lemma EmptyListInputStoresOneEmptyEntry(item: PortfolioItem)
    ensures EditTools(item, "").tools == [""]
    ensures EditTags(item, "").tags == [""]
  {
    assert Split("", ',') == [""];
    assert Trim("") == "";
  }

  /** The tools and tags inputs show the list joined by ", "; reading that
      text back stores the same list when it is non-empty and every entry is
      comma-free and trimmed. */
  lemma ToolsShownReadBack(item: PortfolioItem)
    requires |item.tools| >= 1
    requires forall i :: 0 <= i < |item.tools| ==> ',' !in item.tools[i] && Trim(item.tools[i]) == item.tools[i]
    ensures EditTools(item, Join(item.tools, ", ")) == item
  {
    CommaListJoin(item.tools);
    SetFieldLaws(item, Tools, StringsValue(item.tools), StringsValue(item.tools));
  }

  datatype StatField = Views | Likes | Comments

  function StatOf(s: Stats, f: StatField): Option<int> {
    match f
    case Views => s.views
    case Likes => s.likes
    case Comments => s.comments
  }

  /** `parseInt(text) || undefined`: a number that is not zero, or absent
      when the text holds no number or reads as zero. */
  function StatValue(text: string): (r: Option<int>)
    ensures r.Some? <==> ParseInt(text).Some? && ParseInt(text).value != 0
    ensures r.Some? ==> r == ParseInt(text)
  {
    match ParseInt(text)
    case None => None
    case Some(n) => if n == 0 then None else Some(n)
  }

  /** `item.stats?.views || ''`: what a statistics input shows. */
  function DisplayStat(o: Option<int>): (r: string)
    ensures o.None? || o == Some(0) ==> r == ""
  {
    match o
    case None => ""
    case Some(n) => if n == 0 then "" else IntToString(n)
  }

  /** Reading back what a statistics input shows gives the stored number;
      a stored zero is read back as absent. */
  lemma StatShownReadBack(o: Option<int>)
    ensures StatValue(DisplayStat(o)) == if o == Some(0) then None else o
  {
    if o.Some? && o.value != 0 {
      ParseIntRoundTrip(o.value);
    }
  }

  /** Every integer typed in decimal is stored as itself, except zero. */
  lemma StatValueOfNumeral(n: int)
    ensures StatValue(IntToString(n)) == if n == 0 then None else Some(n)
  {
    ParseIntRoundTrip(n);
  }

  /** A statistics input: `{ ...item.stats, views: parseInt(text) ||
      undefined }`. The field edited takes the parsed value and the other
      two keep theirs (absent when there were no statistics). */
  function EditStat(item: PortfolioItem, f: StatField, text: string): (r: PortfolioItem)
    ensures r.stats.Some? && StatOf(r.stats.value, f) == StatValue(text)
    ensures forall g :: g != f ==> StatOf(r.stats.value, g) == (if item.stats.Some? then StatOf(item.stats.value, g) else None)
    ensures forall k :: k != StatsKey ==> GetField(r, k) == GetField(item, k)
  {
    var prev := if item.stats.Some? then item.stats.value else Stats(None, None, None);
    SetField(item, StatsKey, StatsValue(SetStat(prev, f, StatValue(text))))
  }

  /** `{ ...stats, [field]: value }` on the statistics record. */
  function SetStat(s: Stats, f: StatField, v: Option<int>): (r: Stats)
    ensures StatOf(r, f) == v
    ensures forall g :: g != f ==> StatOf(r, g) == StatOf(s, g)
  {
    match f
    case Views => s.(views := v)
    case Likes => s.(likes := v)
    case Comments => s.(comments := v)
  }
}
