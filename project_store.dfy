// The project store: the metadata of the project being edited, its save
// status and the dirty flag that says whether there are unsaved changes.
module ProjectStore {
  import opened Basics

  datatype SaveStatus = Idle | Saving | Saved | Error

  /** A point in time, kept as the value it was made from (a stored timestamp text or a clock reading). */
  datatype Date = FromText(text: string) | FromClock(ms: int)

  /** A saved project row, as far as this store reads it; a missing customer field or note is `None`. */
  datatype Project = Project(
    id: string,
    name: string,
    address: string,
    lat: real,
    lng: real,
    customerName: Option<string>,
    customerPhone: Option<string>,
    customerEmail: Option<string>,
    notes: Option<string>,
    updatedAt: string)

  /** Every field of the store, as one value. */
  datatype ProjectState = ProjectState(
    currentProject: Option<Project>,
    projectName: string,
    projectAddress: string,
    projectLat: real,
    projectLng: real,
    customerName: string,
    customerPhone: string,
    customerEmail: string,
    notes: string,
    saveStatus: SaveStatus,
    lastSaved: Option<Date>,
    isDirty: bool)

  /** The initial state, also restored by `resetProject`: the map starts at New Smyrna Beach. */
  const DefaultState: ProjectState :=
    ProjectState(None, "", "", 29.0258, -80.927, "", "", "", "", Idle, None, false)

  /** The store's operations. */
  datatype Op =
    | SetCurrentProject(project: Option<Project>)
    | SetProjectName(name: string)
    | SetProjectAddress(address: string)
    | SetProjectLat(lat: real)
    | SetProjectLng(lng: real)
    | SetCustomerName(customerName: string)
    | SetCustomerPhone(phone: string)
    | SetCustomerEmail(email: string)
    | SetNotes(notes: string)
    | SetSaveStatus(status: SaveStatus)
    | SetLastSaved(date: Option<Date>)
    | SetIsDirty(dirty: bool)
    | ResetProject
    | LoadFromProject(loaded: Project)

  /** `x || ""` for a nullable text column. */
  function OrEmpty(s: Option<string>): string {
    match s
    case Some(v) => v
    case None => ""
  }

  /** The state after one operation. */
  function Apply(s: ProjectState, op: Op): ProjectState {
    match op
    case SetCurrentProject(p) => s.(currentProject := p)
    case SetProjectName(v) => s.(projectName := v, isDirty := true)
    case SetProjectAddress(v) => s.(projectAddress := v, isDirty := true)
    case SetProjectLat(v) => s.(projectLat := v)
    case SetProjectLng(v) => s.(projectLng := v)
    case SetCustomerName(v) => s.(customerName := v, isDirty := true)
    case SetCustomerPhone(v) => s.(customerPhone := v, isDirty := true)
    case SetCustomerEmail(v) => s.(customerEmail := v, isDirty := true)
    case SetNotes(v) => s.(notes := v, isDirty := true)
    case SetSaveStatus(v) => s.(saveStatus := v)
    case SetLastSaved(v) => s.(lastSaved := v)
    case SetIsDirty(v) => s.(isDirty := v)
    case ResetProject => DefaultState
    case LoadFromProject(p) =>
      ProjectState(Some(p), p.name, p.address, p.lat, p.lng,
        OrEmpty(p.customerName), OrEmpty(p.customerPhone), OrEmpty(p.customerEmail), OrEmpty(p.notes),
        Saved, Some(FromText(p.updatedAt)), false)
  }

  function ApplyAll(s: ProjectState, ops: seq<Op>): ProjectState
    decreases |ops|
  {
    if ops == [] then s else ApplyAll(Apply(s, ops[0]), ops[1..])
  }

  /** The edits of project and customer details: the operations that mark the project as changed. */
  predicate MarksDirty(op: Op) {
    op.SetProjectName? || op.SetProjectAddress? || op.SetCustomerName?
    || op.SetCustomerPhone? || op.SetCustomerEmail? || op.SetNotes?
  }

  /** The operations that write the dirty flag at all. */
  predicate WritesDirty(op: Op) {
    MarksDirty(op) || op.SetIsDirty? || op.ResetProject? || op.LoadFromProject?
  }

  // ---------------------------------------------------------------------------
  // Properties
  // ---------------------------------------------------------------------------

  /** The dirty rule of one operation: detail edits set it, position, status, date and project setters leave it alone. */
  lemma DirtyRule(s: ProjectState, op: Op)
    ensures MarksDirty(op) ==> Apply(s, op).isDirty
    ensures !WritesDirty(op) ==> Apply(s, op).isDirty == s.isDirty
    ensures op.SetIsDirty? ==> Apply(s, op) == s.(isDirty := op.dirty)
    ensures op.ResetProject? || op.LoadFromProject? ==> !Apply(s, op).isDirty
  {
  }

  /** Reset forgets everything: whatever the state, it becomes the default. */
  lemma ResetIsDefault(s: ProjectState)
    ensures Apply(s, ResetProject) == DefaultState
    ensures DefaultState.currentProject == None && DefaultState.lastSaved == None
    ensures DefaultState.saveStatus == Idle && !DefaultState.isDirty
    ensures DefaultState.projectName == "" && DefaultState.projectAddress == ""
  {
  }

  /** A text field shows a nullable column: its value when there is one, and "" when it is missing. */
  predicate ShowsColumn(field: string, column: Option<string>) {
    (column.None? ==> field == "") && (column.Some? ==> field == column.value)
  }

  /** Loading a project shows its details, blanks its missing ones, takes its update time as the save time, and is saved and clean; the previous state plays no part. */
  lemma LoadShowsProject(s: ProjectState, t: ProjectState, p: Project)
    ensures Apply(s, LoadFromProject(p)) == Apply(t, LoadFromProject(p))
    ensures var r := Apply(s, LoadFromProject(p));
      r.currentProject == Some(p) && r.projectName == p.name && r.projectAddress == p.address
      && r.projectLat == p.lat && r.projectLng == p.lng
      && ShowsColumn(r.customerName, p.customerName)
      && ShowsColumn(r.customerPhone, p.customerPhone)
      && ShowsColumn(r.customerEmail, p.customerEmail)
      && ShowsColumn(r.notes, p.notes)
      && r.lastSaved == Some(FromText(p.updatedAt))
      && r.saveStatus == Saved && !r.isDirty
  {
  }

  /** Every operation is idempotent: applying it twice is applying it once. */
  lemma ApplyIdempotent(s: ProjectState, op: Op)
    ensures Apply(Apply(s, op), op) == Apply(s, op)
  {
  }

  /** A run of operations none of which writes the flag leaves it as it was. */
  lemma {:induction false} DirtyUnchangedWithoutWrites(s: ProjectState, ops: seq<Op>)
    requires forall j :: 0 <= j < |ops| ==> !WritesDirty(ops[j])
    ensures ApplyAll(s, ops).isDirty == s.isDirty
    decreases |ops|
  {
    if ops != [] {
      DirtyUnchangedWithoutWrites(Apply(s, ops[0]), ops[1..]);
    }
  }

  /** After a detail edit the project stays dirty until the flag is written again. */
  lemma EditKeepsDirty(s: ProjectState, ops: seq<Op>, j: nat)
    requires j < |ops| && MarksDirty(ops[j])
    requires forall k :: j < k < |ops| ==> !WritesDirty(ops[k])
    ensures ApplyAll(s, ops).isDirty
  {
    ApplyAllSplit(s, ops[..j + 1], ops[j + 1..]);
    assert ops == ops[..j + 1] + ops[j + 1..];
    ApplyAllSplit(s, ops[..j], [ops[j]]);
    assert ops[..j + 1] == ops[..j] + [ops[j]];
    var before := ApplyAll(s, ops[..j]);
    assert ApplyAll(before, [ops[j]]) == Apply(before, ops[j]);
    DirtyUnchangedWithoutWrites(ApplyAll(s, ops[..j + 1]), ops[j + 1..]);
  }

  /** A freshly loaded project is clean until something writes the flag. */
  lemma LoadedStaysCleanWithoutEdits(s: ProjectState, p: Project, ops: seq<Op>)
    requires forall j :: 0 <= j < |ops| ==> !WritesDirty(ops[j])
    ensures !ApplyAll(Apply(s, LoadFromProject(p)), ops).isDirty
  {
    DirtyUnchangedWithoutWrites(Apply(s, LoadFromProject(p)), ops);
  }

  lemma {:induction false} ApplyAllSplit(s: ProjectState, a: seq<Op>, b: seq<Op>)
    ensures ApplyAll(s, a + b) == ApplyAll(ApplyAll(s, a), b)
    decreases |a|
  {
    if a == [] {
      assert a + b == b;
    } else {
      assert (a + b)[1..] == a[1..] + b;
      ApplyAllSplit(Apply(s, a[0]), a[1..], b);
    }
  }

  // ---------------------------------------------------------------------------
  // The store object
  // ---------------------------------------------------------------------------

  class ProjectStore {
    var currentProject: Option<Project>
    var projectName: string
    var projectAddress: string
    var projectLat: real
    var projectLng: real
    var customerName: string
    var customerPhone: string
    var customerEmail: string
    var notes: string
    var saveStatus: SaveStatus
    var lastSaved: Option<Date>
    var isDirty: bool

    function State(): ProjectState
      reads this
    {
      ProjectState(currentProject, projectName, projectAddress, projectLat, projectLng,
        customerName, customerPhone, customerEmail, notes, saveStatus, lastSaved, isDirty)
    }

    /** Overwrites every field from a state value, as one `set` of the whole object. */
    method Assign(s: ProjectState)
      modifies this
      ensures State() == s
    {
      currentProject, projectName, projectAddress, projectLat, projectLng :=
        s.currentProject, s.projectName, s.projectAddress, s.projectLat, s.projectLng;
      customerName, customerPhone, customerEmail, notes :=
        s.customerName, s.customerPhone, s.customerEmail, s.notes;
      saveStatus, lastSaved, isDirty := s.saveStatus, s.lastSaved, s.isDirty;
    }

    constructor ()
      ensures State() == DefaultState
    {
      currentProject, projectName, projectAddress, projectLat, projectLng := None, "", "", 29.0258, -80.927;
      customerName, customerPhone, customerEmail, notes := "", "", "", "";
      saveStatus, lastSaved, isDirty := Idle, None, false;
    }

    method SetCurrentProject(p: Option<Project>)
      modifies this
      ensures State() == Apply(old(State()), Op.SetCurrentProject(p))
    {
      currentProject := p;
    }

    method SetProjectName(name: string)
      modifies this
      ensures State() == Apply(old(State()), Op.SetProjectName(name))
    {
      projectName, isDirty := name, true;
    }

    method SetProjectAddress(address: string)
      modifies this
      ensures State() == Apply(old(State()), Op.SetProjectAddress(address))
    {
      projectAddress, isDirty := address, true;
    }

    method SetProjectLat(lat: real)
      modifies this
      ensures State() == Apply(old(State()), Op.SetProjectLat(lat))
    {
      projectLat := lat;
    }

    method SetProjectLng(lng: real)
      modifies this
      ensures State() == Apply(old(State()), Op.SetProjectLng(lng))
    {
      projectLng := lng;
    }

    method SetCustomerName(name: string)
      modifies this
      ensures State() == Apply(old(State()), Op.SetCustomerName(name))
    {
      customerName, isDirty := name, true;
    }

    method SetCustomerPhone(phone: string)
      modifies this
      ensures State() == Apply(old(State()), Op.SetCustomerPhone(phone))
    {
      customerPhone, isDirty := phone, true;
    }

    method SetCustomerEmail(email: string)
      modifies this
      ensures State() == Apply(old(State()), Op.SetCustomerEmail(email))
    {
      customerEmail, isDirty := email, true;
    }

    method SetNotes(text: string)
      modifies this
      ensures State() == Apply(old(State()), Op.SetNotes(text))
    {
      notes, isDirty := text, true;
    }

    method SetSaveStatus(status: SaveStatus)
      modifies this
      ensures State() == Apply(old(State()), Op.SetSaveStatus(status))
    {
      saveStatus := status;
    }

    method SetLastSaved(date: Option<Date>)
      modifies this
      ensures State() == Apply(old(State()), Op.SetLastSaved(date))
    {
      lastSaved := date;
    }

    method SetIsDirty(dirty: bool)
      modifies this
      ensures State() == Apply(old(State()), Op.SetIsDirty(dirty))
    {
      isDirty := dirty;
    }

    method ResetProject()
      modifies this
      ensures State() == Apply(old(State()), Op.ResetProject)
    {
      Assign(DefaultState);
    }

    method LoadFromProject(p: Project)
      modifies this
      ensures State() == Apply(old(State()), Op.LoadFromProject(p))
    {
      Assign(ProjectState(Some(p), p.name, p.address, p.lat, p.lng,
        OrEmpty(p.customerName), OrEmpty(p.customerPhone), OrEmpty(p.customerEmail), OrEmpty(p.notes),
        Saved, Some(FromText(p.updatedAt)), false));
    }
  }
}
