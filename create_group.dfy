/**
 * The create-group form: every handler is a previous-form to next-form
 * update. Tags are added on Enter without duplicates and removed by value,
 * meeting times are appended, edited field by field and removed by index,
 * the member limit never drops below one, and submission needs the four
 * required fields.
 */
module CreateGroup {
  import opened Common

  datatype SkillLevel = AllLevels | Beginner | Intermediate | Advanced

  datatype Day = Monday | Tuesday | Wednesday | Thursday | Friday | Saturday | Sunday

  datatype ScheduleEntry = ScheduleEntry(day: Day, startTime: string, endTime: string, recurring: bool)

  /**
   * `CreateGroupForm` without the image and court picker fields; the empty
   * choice ('') of sport and skill level is `None`.
   */
  datatype GroupForm = GroupForm(
    name: string,
    description: string,
    sport: Option<Sport>,
    location: string,
    skillLevel: Option<SkillLevel>,
    maxMembers: int,
    tags: seq<string>,
    schedule: seq<ScheduleEntry>)

  const InitialForm: GroupForm := GroupForm("", "", None, "", None, 20, [], [])

  // ---------------------------------------------------------------------
  // Submission

  datatype SubmitOutcome = Rejected(error: string) | NavigateTo(path: string)

  const RequiredFieldsError: string := "Please fill in all required fields"

  /** `handleSubmit`: the creation itself is not written yet, so success only navigates. */
  function HandleSubmit(form: GroupForm): (outcome: SubmitOutcome)
    ensures outcome.NavigateTo? <==>
              form.name != "" && form.sport.Some? && form.location != "" && form.skillLevel.Some?
    ensures outcome.Rejected? ==> outcome.error == RequiredFieldsError
    ensures outcome.NavigateTo? ==> outcome.path == "/groups"
  {
    if form.name == "" || form.sport.None? || form.location == "" || form.skillLevel.None?
    then Rejected(RequiredFieldsError)
    else NavigateTo("/groups")
  }

  lemma UntouchedFormIsRejected()
    ensures HandleSubmit(InitialForm) == Rejected(RequiredFieldsError)
  {
  }

  // ---------------------------------------------------------------------
  // Tags

  /** `handleAddTag`: the next form and the next contents of the tag input. */
  function HandleAddTag(form: GroupForm, newTag: string, key: string): (next: (GroupForm, string))
    ensures next.0 == form.(tags := next.0.tags)
    ensures next.0.tags == form.tags || next.0.tags == form.tags + [Trim(newTag)]
    ensures next.0.tags != form.tags <==> key == "Enter" && Trim(newTag) != "" && Trim(newTag) !in form.tags
    ensures next.1 == if next.0.tags != form.tags then "" else newTag
  {
    var tag := Trim(newTag);
    if key == "Enter" && tag != "" && tag !in form.tags
    then (form.(tags := form.tags + [tag]), "")
    else (form, newTag)
  }

  /** `handleDeleteTag`: drops every tag equal to the argument. */
  function HandleDeleteTag(form: GroupForm, tagToDelete: string): (next: GroupForm)
    ensures next == form.(tags := next.tags)
    ensures forall i :: 0 <= i < |next.tags| ==> next.tags[i] != tagToDelete
  {
    form.(tags := Filter(form.tags, (t: string) => t != tagToDelete))
  }

  lemma DeleteTagKeepsOthers(form: GroupForm, tagToDelete: string, t: string)
    ensures t in HandleDeleteTag(form, tagToDelete).tags <==> t in form.tags && t != tagToDelete
    ensures IsSubsequence(HandleDeleteTag(form, tagToDelete).tags, form.tags)
  {
    FilterMembership(form.tags, (t: string) => t != tagToDelete, t);
    FilterIsSubsequence(form.tags, (t: string) => t != tagToDelete);
  }

  /** No tag is repeated, and each one is non-blank and trimmed. */
  predicate GoodTags(tags: seq<string>)
  {
    Distinct(tags) &&
    (forall i :: 0 <= i < |tags| ==> tags[i] != "" && IsTrimmed(tags[i]))
  }

  lemma AddTagKeepsTagsGood(form: GroupForm, newTag: string, key: string)
    requires GoodTags(form.tags)
    ensures GoodTags(HandleAddTag(form, newTag, key).0.tags)
  {
    var tag := Trim(newTag);
    if key == "Enter" && tag != "" && tag !in form.tags {
      TrimIsTrimmed(newTag);
      AppendGoodTag(form.tags, tag);
    }
  }

  lemma AppendGoodTag(tags: seq<string>, tag: string)
    requires GoodTags(tags) && tag != "" && IsTrimmed(tag) && tag !in tags
    ensures GoodTags(tags + [tag])
  {
    var longer := tags + [tag];
    forall i, j | 0 <= i < j < |longer| ensures longer[i] != longer[j] {
      if j == |tags| {
        assert longer[i] == tags[i];
      }
    }
  }

  lemma {:induction false} FilterKeepsTagsGood(tags: seq<string>, tagToDelete: string)
    requires GoodTags(tags)
    ensures GoodTags(Filter(tags, (t: string) => t != tagToDelete))
  {
    var p := (t: string) => t != tagToDelete;
    if tags != [] {
      FilterKeepsTagsGood(tags[1..], tagToDelete);
      FilterMembership(tags[1..], p, tags[0]);
    }
  }

  /** The tag edits a user can make. */
  datatype TagEvent = KeyDown(input: string, key: string) | DeleteTag(tag: string)

  function ApplyTagEvents(form: GroupForm, events: seq<TagEvent>): GroupForm
    decreases |events|
  {
    if events == [] then form
    else
      var next := match events[0]
        case KeyDown(input, key) => HandleAddTag(form, input, key).0
        case DeleteTag(tag) => HandleDeleteTag(form, tag);
      ApplyTagEvents(next, events[1..])
  }

  /** Starting from no tags, any sequence of tag edits keeps the tags duplicate-free, trimmed and non-blank. */
  lemma {:induction false} TagsStayGood(form: GroupForm, events: seq<TagEvent>)
    requires GoodTags(form.tags)
    ensures GoodTags(ApplyTagEvents(form, events).tags)
    decreases |events|
  {
    if events != [] {
      match events[0]
      case KeyDown(input, key) =>
        AddTagKeepsTagsGood(form, input, key);
        TagsStayGood(HandleAddTag(form, input, key).0, events[1..]);
      case DeleteTag(tag) =>
        FilterKeepsTagsGood(form.tags, tag);
        TagsStayGood(HandleDeleteTag(form, tag), events[1..]);
    }
  }

  lemma InitialTagsGood()
    ensures GoodTags(InitialForm.tags)
  {
  }

  // ---------------------------------------------------------------------
  // Meeting schedule

  const DefaultScheduleEntry: ScheduleEntry := ScheduleEntry(Monday, "09:00", "10:00", true)

  /** `handleAddSchedule` */
  function HandleAddSchedule(form: GroupForm): (next: GroupForm)
    ensures |next.schedule| == |form.schedule| + 1
    ensures next.schedule[..|form.schedule|] == form.schedule
    ensures next.schedule[|form.schedule|] == ScheduleEntry(Monday, "09:00", "10:00", true)
    ensures next == form.(schedule := next.schedule)
  {
    form.(schedule := form.schedule + [DefaultScheduleEntry])
  }

  /** A field of a schedule entry together with its new value. */
  datatype ScheduleEdit =
    | SetDay(day: Day)
    | SetStartTime(startTime: string)
    | SetEndTime(endTime: string)
    | SetRecurring(recurring: bool)

  /** `{ ...item, [field]: value }` */
  function ApplyEdit(item: ScheduleEntry, edit: ScheduleEdit): ScheduleEntry
  {
    match edit
    case SetDay(d) => item.(day := d)
    case SetStartTime(t) => item.(startTime := t)
    case SetEndTime(t) => item.(endTime := t)
    case SetRecurring(b) => item.(recurring := b)
  }

  /** `handleScheduleChange(index, field, value)`: maps over the list, changing entry `index` only. */
  function HandleScheduleChange(form: GroupForm, index: int, edit: ScheduleEdit): (next: GroupForm)
    ensures next == form.(schedule := next.schedule)
    ensures |next.schedule| == |form.schedule|
    ensures forall i :: 0 <= i < |form.schedule| && i != index ==> next.schedule[i] == form.schedule[i]
    ensures 0 <= index < |form.schedule| ==> next.schedule[index] == ApplyEdit(form.schedule[index], edit)
  {
    form.(schedule := seq(|form.schedule|, i requires 0 <= i < |form.schedule| =>
                            if i == index then ApplyEdit(form.schedule[i], edit) else form.schedule[i]))
  }

  /** An edit changes exactly the field it names and leaves the other three alone. */
  lemma EditChangesOneField(form: GroupForm, index: int, edit: ScheduleEdit)
    requires 0 <= index < |form.schedule|
    ensures var before, after := form.schedule[index], HandleScheduleChange(form, index, edit).schedule[index];
            (if edit.SetDay? then after.day == edit.day else after.day == before.day) &&
            (if edit.SetStartTime? then after.startTime == edit.startTime else after.startTime == before.startTime) &&
            (if edit.SetEndTime? then after.endTime == edit.endTime else after.endTime == before.endTime) &&
            (if edit.SetRecurring? then after.recurring == edit.recurring else after.recurring == before.recurring)
  {
  }

  /** An index outside the list changes nothing. */
  lemma OutOfRangeEditIsNoOp(form: GroupForm, index: int, edit: ScheduleEdit)
    requires index < 0 || index >= |form.schedule|
    ensures HandleScheduleChange(form, index, edit) == form
  {
    assert HandleScheduleChange(form, index, edit).schedule == form.schedule;
  }

  /** `handleRemoveSchedule(index)`: `filter((_, i) => i !== index)`. */
  function HandleRemoveSchedule(form: GroupForm, index: int): (next: GroupForm)
    ensures next == form.(schedule := next.schedule)
    ensures 0 <= index < |form.schedule| ==>
              next.schedule == form.schedule[..index] + form.schedule[index + 1..]
    ensures !(0 <= index < |form.schedule|) ==> next.schedule == form.schedule
  {
    form.(schedule := RemoveAt(form.schedule, index))
  }

  // ---------------------------------------------------------------------
  // Member limit

  /**
   * `Math.max(1, parseInt(text) || 1)`, given what `parseInt` returned:
   * `None` for NaN. Zero is falsy too and falls back to 1.
   */
  function ClampMaxMembers(parsed: Option<int>): (limit: int)
    ensures limit >= 1
    ensures parsed.Some? && parsed.value >= 1 ==> limit == parsed.value
    ensures (parsed.None? || parsed.value < 1) ==> limit == 1
  {
    var n := if parsed.None? || parsed.value == 0 then 1 else parsed.value;
    if n > 1 then n else 1
  }

  function HandleMaxMembersChange(form: GroupForm, parsed: Option<int>): (next: GroupForm)
    ensures next.maxMembers >= 1
    ensures next == form.(maxMembers := next.maxMembers)
  {
    form.(maxMembers := ClampMaxMembers(parsed))
  }

  /** Every handler of the form, with its argument. */
  datatype FormEvent =
    | Tag(event: TagEvent)
    | AddSchedule
    | ChangeSchedule(index: int, edit: ScheduleEdit)
    | RemoveSchedule(index: int)
    | MaxMembers(parsed: Option<int>)
    | SetName(name: string)
    | SetDescription(description: string)
    | SetLocation(location: string)
    | SetSport(sport: Sport)
    | SetSkill(level: SkillLevel)

  function Step(form: GroupForm, event: FormEvent): GroupForm
  {
    match event
    case Tag(e) => ApplyTagEvents(form, [e])
    case AddSchedule => HandleAddSchedule(form)
    case ChangeSchedule(i, e) => HandleScheduleChange(form, i, e)
    case RemoveSchedule(i) => HandleRemoveSchedule(form, i)
    case MaxMembers(p) => HandleMaxMembersChange(form, p)
    case SetName(n) => form.(name := n)
    case SetDescription(d) => form.(description := d)
    case SetLocation(l) => form.(location := l)
    case SetSport(s) => form.(sport := Some(s))
    case SetSkill(l) => form.(skillLevel := Some(l))
  }

  function Run(form: GroupForm, events: seq<FormEvent>): GroupForm
    decreases |events|
  {
    if events == [] then form else Run(Step(form, events[0]), events[1..])
  }

  /** From the initial form, whatever the user does, the member limit stays at least 1 and the tags stay good. */
  lemma {:induction false} FormInvariant(form: GroupForm, events: seq<FormEvent>)
    requires form.maxMembers >= 1 && GoodTags(form.tags)
    ensures Run(form, events).maxMembers >= 1 && GoodTags(Run(form, events).tags)
    decreases |events|
  {
    if events != [] {
      var next := Step(form, events[0]);
      if events[0].Tag? {
        TagsStayGood(form, [events[0].event]);
        assert ApplyTagEvents(form, [events[0].event]).maxMembers == form.maxMembers by {
          TagEventsKeepLimit(form, [events[0].event]);
        }
      }
      FormInvariant(next, events[1..]);
    }
  }

  lemma {:induction false} TagEventsKeepLimit(form: GroupForm, events: seq<TagEvent>)
    ensures ApplyTagEvents(form, events).maxMembers == form.maxMembers
    decreases |events|
  {
    if events != [] {
      var next := match events[0]
        case KeyDown(input, key) => HandleAddTag(form, input, key).0
        case DeleteTag(tag) => HandleDeleteTag(form, tag);
      TagEventsKeepLimit(next, events[1..]);
    }
  }

  lemma InitialFormInvariant(events: seq<FormEvent>)
    ensures Run(InitialForm, events).maxMembers >= 1
    ensures GoodTags(Run(InitialForm, events).tags)
  {
    FormInvariant(InitialForm, events);
  }
}
