// PermissionService: the app's own per-permission switches (stored under
// one key), the operating system's answers read through the Expo probes,
// the combination of the two, and an in-memory usage log of the newest 100
// entries.
module Permissions {
  import opened Common
  import opened BoundedLog

  datatype PermissionType = Camera | Microphone | MediaLibrary | Contacts | Location | Calendar | FileSystem

  /** An entry of PERMISSION_DEFINITIONS. */
  datatype Definition = Definition(kind: PermissionType, name: string, description: string, icon: string)

  datatype Permission = Permission(kind: PermissionType, name: string, description: string, icon: string, granted: bool, systemGranted: bool)

  datatype PermissionUsageLog = PermissionUsageLog(kind: PermissionType, action: string, timestamp: int, details: Option<string>)

  /** The outcome of one Expo permission call: its answer, or an exception. */
  datatype Probe = Answer(granted: bool) | Throws

  /** The five status probes `checkSystemPermissions` makes, in call order. */
  datatype SystemProbes = SystemProbes(camera: Probe, mediaLibrary: Probe, contacts: Probe, location: Probe, calendar: Probe)

  type Flags = map<PermissionType, bool>

  const USAGE_LOG_LIMIT := 100

  const ALL_TYPES: set<PermissionType> := {Camera, Microphone, MediaLibrary, Contacts, Location, Calendar, FileSystem}

  lemma AllTypesComplete(t: PermissionType)
    ensures t in ALL_TYPES
  {
  }

  function PermissionDefinitions(): (r: seq<Definition>)
    ensures |r| == 7
    ensures r[0].kind == Camera && r[1].kind == Microphone && r[2].kind == MediaLibrary && r[3].kind == Contacts
    ensures r[4].kind == Location && r[5].kind == Calendar && r[6].kind == FileSystem
    ensures forall i, j :: 0 <= i < j < |r| ==> r[i].kind != r[j].kind
  {
    [ Definition(Camera, "Camera", "Allow AI to take photos and scan documents", "camera"),
      Definition(Microphone, "Microphone", "Allow AI to record audio and transcribe speech", "mic"),
      Definition(MediaLibrary, "Photo Library", "Allow AI to access and analyze your photos", "photo-library"),
      Definition(Contacts, "Contacts", "Allow AI to read and search your contacts", "contacts"),
      Definition(Location, "Location", "Allow AI to access your current location", "location-on"),
      Definition(Calendar, "Calendar", "Allow AI to read and manage calendar events", "event"),
      Definition(FileSystem, "File System", "Allow AI to read, write, and manage files", "folder") ]
  }

  /** Every permission type has exactly one definition. */
  lemma DefinitionFor(t: PermissionType) returns (i: nat)
    ensures i < |PermissionDefinitions()| && PermissionDefinitions()[i].kind == t
    ensures forall j :: 0 <= j < |PermissionDefinitions()| && PermissionDefinitions()[j].kind == t ==> j == i
  {
    match t
    case Camera => i := 0;
    case Microphone => i := 1;
    case MediaLibrary => i := 2;
    case Contacts => i := 3;
    case Location => i := 4;
    case Calendar => i := 5;
    case FileSystem => i := 6;
  }

  /** The user switches when nothing usable is stored: every permission denied. */
  function DefaultUserFlags(): (r: Flags)
    ensures r.Keys == ALL_TYPES
    ensures forall t :: t in r ==> !r[t]
  {
    map t | t in ALL_TYPES :: false
  }

  /** A stored switch read with `|| false`: a missing entry is off. */
  predicate FlagOn(flags: Flags, t: PermissionType) {
    t in flags && flags[t]
  }

  /** The probe calls in the order `checkSystemPermissions` makes them. */
  function ProbeOrder(): seq<PermissionType> {
    [Camera, MediaLibrary, Contacts, Location, Calendar]
  }

  function ProbeAt(probes: SystemProbes, i: nat): Probe
    requires i < 5
  {
    [probes.camera, probes.mediaLibrary, probes.contacts, probes.location, probes.calendar][i]
  }

  /** The system answer for one permission: the file system is always
      available, the microphone is never reported, and a probed permission
      is granted only when its probe answered yes and no earlier probe
      threw (an exception abandons the remaining probes). */
  ghost predicate SystemGranted(probes: SystemProbes, t: PermissionType) {
    if t == FileSystem then true
    else if t == Microphone then false
    else exists k :: (0 <= k < 5 && ProbeOrder()[k] == t && ProbeAt(probes, k) == Answer(true)
      && forall j :: 0 <= j < k ==> !ProbeAt(probes, j).Throws?)
  }

  /** `checkSystemPermissions`: start from the defaults and record each
      probe's answer in turn; the first exception ends the sequence. */
  method CheckSystemPermissions(probes: SystemProbes) returns (permissions: Flags)
    ensures permissions.Keys == ALL_TYPES
    ensures forall t :: t in permissions ==> (permissions[t] <==> SystemGranted(probes, t))
  {
    permissions := map[Camera := false, Microphone := false, MediaLibrary := false, Contacts := false,
                       Location := false, Calendar := false, FileSystem := true];
    var p := probes;
    assert ProbeAt(p, 0) == p.camera && ProbeAt(p, 1) == p.mediaLibrary && ProbeAt(p, 2) == p.contacts
      && ProbeAt(p, 3) == p.location && ProbeAt(p, 4) == p.calendar;
    assert ProbeOrder()[0] == Camera && ProbeOrder()[1] == MediaLibrary && ProbeOrder()[2] == Contacts
      && ProbeOrder()[3] == Location && ProbeOrder()[4] == Calendar;
    if p.camera.Throws? {
      return;
    }
    permissions := permissions[Camera := p.camera.granted];
    permissions := permissions[Microphone := false];
    if p.mediaLibrary.Throws? {
      return;
    }
    permissions := permissions[MediaLibrary := p.mediaLibrary.granted];
    if p.contacts.Throws? {
      return;
    }
    permissions := permissions[Contacts := p.contacts.granted];
    if p.location.Throws? {
      return;
    }
    permissions := permissions[Location := p.location.granted];
    if p.calendar.Throws? {
      return;
    }
    permissions := permissions[Calendar := p.calendar.granted];
  }

  /** `requestSystemPermission`: the microphone and the file system are
      always reported granted; the others ask the system, and an exception
      gives false. */
  function RequestSystemPermission(t: PermissionType, request: Probe): (r: bool)
    ensures t == Microphone || t == FileSystem ==> r
    ensures t != Microphone && t != FileSystem ==> (r <==> request == Answer(true))
  {
    match t
    case Microphone => true
    case FileSystem => true
    case _ => request.Answer? && request.granted
  }

  class PermissionService {
    /** The `@ai_assistant_permissions` item. */
    var stored: Option<Flags>
    var usageLogs: seq<PermissionUsageLog>
    /** Every entry logged since the log was last cleared. */
    ghost var history: seq<PermissionUsageLog>

    ghost predicate Valid()
      reads this
    {
      usageLogs == KeepLast(history, USAGE_LOG_LIMIT)
    }

    constructor (stored: Option<Flags>)
      ensures Valid() && this.stored == stored && usageLogs == [] && history == []
    {
      this.stored := stored;
      usageLogs := [];
      history := [];
    }

    /** `getUserPermissions`: the stored switches, or all denied when the
        item is missing or cannot be read. */
    function GetUserPermissions(readOk: bool): (r: Flags)
      reads this
      ensures readOk && stored.Some? ==> r == stored.value
      ensures !(readOk && stored.Some?) ==> r == DefaultUserFlags()
    {
      if readOk && stored.Some? then stored.value else DefaultUserFlags()
    }

    /** `getAllPermissions`: one entry per definition, in definition order,
        each with its user switch and system answer (missing entries off). */
    function GetAllPermissions(readOk: bool, system: Flags): (r: seq<Permission>)
      reads this
      ensures |r| == |PermissionDefinitions()|
      ensures forall i :: 0 <= i < |r| ==>
        var d := PermissionDefinitions()[i];
        r[i] == Permission(d.kind, d.name, d.description, d.icon,
          FlagOn(GetUserPermissions(readOk), d.kind), FlagOn(system, d.kind))
    {
      var user := GetUserPermissions(readOk);
      var defs := PermissionDefinitions();
      seq(|defs|, i requires 0 <= i < |defs| =>
        Permission(defs[i].kind, defs[i].name, defs[i].description, defs[i].icon, FlagOn(user, defs[i].kind), FlagOn(system, defs[i].kind)))
    }

    /** `checkPermission`: the user switch and the system answer together. */
    function CheckPermission(t: PermissionType, readOk: bool, system: Flags): (r: bool)
      reads this
      ensures r <==> FlagOn(GetUserPermissions(readOk), t) && FlagOn(system, t)
    {
      var user := GetUserPermissions(readOk);
      t in user && user[t] && t in system && system[t]
    }

    /** `setPermission`: the switches read (all denied when unreadable)
        with t's switch set; the write is not guarded, so its failure is
        the caller's. */
    method SetPermission(t: PermissionType, granted: bool, readOk: bool, writeOk: bool) returns (ok: bool)
      modifies this`stored
      ensures ok == writeOk
      ensures ok ==> stored == Some(old(GetUserPermissions(readOk))[t := granted])
      ensures ok ==> FlagOn(GetUserPermissions(true), t) == granted
      ensures ok ==> forall u :: u != t ==> FlagOn(GetUserPermissions(true), u) == FlagOn(old(GetUserPermissions(readOk)), u)
      ensures !ok ==> stored == old(stored)
    {
      var permissions := GetUserPermissions(readOk);
      permissions := permissions[t := granted];
      if !writeOk {
        return false;
      }
      stored := Some(permissions);
      return true;
    }

    /** `logUsage`: appends the entry, then trims to the newest 100. */
    method LogUsage(t: PermissionType, action: string, details: Option<string>, now: int)
      requires Valid()
      modifies this`usageLogs, this`history
      ensures Valid()
      ensures history == old(history) + [PermissionUsageLog(t, action, now, details)]
      ensures usageLogs == KeepLast(old(usageLogs) + [PermissionUsageLog(t, action, now, details)], USAGE_LOG_LIMIT)
    {
      var log := PermissionUsageLog(t, action, now, details);
      KeepLastIncremental(history, log, USAGE_LOG_LIMIT);
      usageLogs := usageLogs + [log];
      history := history + [log];
      if |usageLogs| > USAGE_LOG_LIMIT {
        usageLogs := usageLogs[|usageLogs| - USAGE_LOG_LIMIT..];
      }
    }

    function GetUsageLogs(): (r: seq<PermissionUsageLog>)
      reads this
      requires Valid()
      ensures |r| <= USAGE_LOG_LIMIT && |r| <= |history|
      ensures r == history[|history| - |r|..]
      ensures r == KeepLast(history, USAGE_LOG_LIMIT)
      ensures |r| == if |history| < USAGE_LOG_LIMIT then |history| else USAGE_LOG_LIMIT
    {
      usageLogs
    }

    method ClearUsageLogs()
      modifies this`usageLogs, this`history
      ensures Valid() && usageLogs == [] && history == []
    {
      usageLogs := [];
      history := [];
    }
  }

  /** Whatever is stored and whatever the probes say, the microphone check fails. */
  lemma MicrophoneNeverGranted(s: PermissionService, readOk: bool, probes: SystemProbes, system: Flags)
    requires system.Keys == ALL_TYPES
    requires forall t :: t in system ==> (system[t] <==> SystemGranted(probes, t))
    ensures !s.CheckPermission(Microphone, readOk, system)
  {
    assert Microphone in ALL_TYPES;
  }

  /** The file system is always reported by the system, so its check is the user's switch alone. */
  lemma FileSystemFollowsUser(s: PermissionService, readOk: bool, probes: SystemProbes, system: Flags)
    requires system.Keys == ALL_TYPES
    requires forall t :: t in system ==> (system[t] <==> SystemGranted(probes, t))
    ensures s.CheckPermission(FileSystem, readOk, system) == FlagOn(s.GetUserPermissions(readOk), FileSystem)
  {
    assert FileSystem in ALL_TYPES;
  }

  /** A probe that throws denies the permissions it and every later probe cover. */
  lemma ThrowDeniesLater(probes: SystemProbes, k: nat, t: PermissionType)
    requires k < 5 && ProbeAt(probes, k).Throws?
    requires exists j :: k <= j < 5 && ProbeOrder()[j] == t
    ensures !SystemGranted(probes, t)
  {
    var j :| k <= j < 5 && ProbeOrder()[j] == t;
    forall m | 0 <= m < 5 && ProbeOrder()[m] == t && ProbeAt(probes, m) == Answer(true)
      ensures k < m && ProbeAt(probes, k).Throws?
    {
      assert m == j;
    }
  }

  /** The list and the single check agree: the entry for t carries both
      parts of `checkPermission(t)`. */
  lemma CheckAgreesWithList(s: PermissionService, t: PermissionType, readOk: bool, system: Flags)
    ensures exists i :: 0 <= i < |s.GetAllPermissions(readOk, system)| && s.GetAllPermissions(readOk, system)[i].kind == t
    ensures forall i :: 0 <= i < |s.GetAllPermissions(readOk, system)| && s.GetAllPermissions(readOk, system)[i].kind == t ==>
      (s.CheckPermission(t, readOk, system) <==> s.GetAllPermissions(readOk, system)[i].granted && s.GetAllPermissions(readOk, system)[i].systemGranted)
  {
    var i := DefinitionFor(t);
    assert s.GetAllPermissions(readOk, system)[i].kind == t;
  }

  /** With nothing stored, every user switch is off and so every check fails. */
  lemma NothingStoredDeniesAll(s: PermissionService, t: PermissionType, readOk: bool, system: Flags)
    requires s.stored.None?
    ensures !s.CheckPermission(t, readOk, system)
  {
  }
}
