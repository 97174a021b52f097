/**
 * Build-property imitation hooks: which property set a starting process
 * receives, how the certified `FIELD:value` entries are parsed and written,
 * which system features Google Photos is shown, and when key attestation is
 * refused.
 *
 * The reflective writes to `Build` and `Build.VERSION` are modelled as
 * updates of a map from the declared fields to their values; the focused
 * task, the stack trace and the listener registration are parameters.
 */
module PropImitationHooks {
  import opened Wrappers

  // ---------------------------------------------------------------- constants

  const PACKAGE_FINSKY := "com.android.vending"
  const PACKAGE_GMS := "com.google.android.gms"
  const PACKAGE_GPHOTOS := "com.google.android.apps.photos"
  const PACKAGE_VELVET := "com.google.android.googlequicksearchbox"

  const PROCESS_GMS_GAPPS := "com.google.android.gms.gapps"
  const PROCESS_GMS_GSERVICE := "com.google.android.gms.gservice"
  const PROCESS_GMS_LEARNING := "com.google.android.gms.learning"
  const PROCESS_GMS_PERSISTENT := "com.google.android.gms.persistent"
  const PROCESS_GMS_SEARCH := "com.google.android.gms.search"
  const PROCESS_GMS_UNSTABLE := "com.google.android.gms.unstable"
  const PROCESS_GMS_UPDATE := "com.google.android.gms.update"

  /** The GMS processes that are given the Pixel 6 Pro properties. */
  const PIXEL_SIX_PROCESSES: set<string> := {
    PROCESS_GMS_PERSISTENT, PROCESS_GMS_GAPPS, PROCESS_GMS_GSERVICE,
    PROCESS_GMS_LEARNING, PROCESS_GMS_SEARCH, PROCESS_GMS_UPDATE }

  /** Every process name the first `switch` of `setProps` handles. */
  const LISTED_PROCESSES: set<string> := PIXEL_SIX_PROCESSES + {PROCESS_GMS_UNSTABLE}

  const PROP_SECURITY_PATCH := "persist.sys.pihooks.security_patch"
  const PROP_FIRST_API_LEVEL := "persist.sys.pihooks.first_api_level"

  const VERSION_PREFIX := "VERSION."

  const PIXEL_SIX_PROPS: map<string, string> := map[
    "PRODUCT" := "raven",
    "DEVICE" := "raven",
    "HARDWARE" := "raven",
    "MANUFACTURER" := "Google",
    "BRAND" := "google",
    "MODEL" := "Pixel 6 Pro",
    "ID" := "AP2A.240905.003.F1",
    "FINGERPRINT" := "google/raven/raven:14/AP2A.240905.003.F1/12235381:user/release-keys"]

  const PIXEL_XL_PROPS: map<string, string> := map[
    "PRODUCT" := "marlin",
    "DEVICE" := "marlin",
    "HARDWARE" := "marlin",
    "MANUFACTURER" := "Google",
    "BRAND" := "google",
    "MODEL" := "Pixel XL",
    "ID" := "QP1A.191005.007.A3",
    "FINGERPRINT" := "google/marlin/marlin:10/QP1A.191005.007.A3/5972272:user/release-keys"]

  const NEXUS_FEATURES: set<string> := {
    "NEXUS_PRELOAD", "nexus_preload", "GOOGLE_BUILD", "GOOGLE_EXPERIENCE", "PIXEL_EXPERIENCE" }

  const PIXEL_FEATURES: set<string> := {
    "PIXEL_2017_EXPERIENCE", "PIXEL_2017_PRELOAD", "PIXEL_2018_EXPERIENCE",
    "PIXEL_2018_PRELOAD", "PIXEL_2019_EXPERIENCE", "PIXEL_2019_MIDYEAR_EXPERIENCE",
    "PIXEL_2019_MIDYEAR_PRELOAD", "PIXEL_2019_PRELOAD", "PIXEL_2020_EXPERIENCE",
    "PIXEL_2020_MIDYEAR_EXPERIENCE", "PIXEL_2021_MIDYEAR_EXPERIENCE" }

  const TENSOR_FEATURES: set<string> := { "PIXEL_2021_EXPERIENCE" }

  // ---------------------------------------------------------------- dispatch

  /** The property set `setProps(Context)` applies to a process. */
  datatype PropSet = CertifiedForGms | PixelSixPro | PixelXL | NoProps

  /**
   * The two `switch` statements of `setProps`: the process name decides
   * first, and only an unlisted process falls through to the package name.
   */
  function Dispatch(packageName: string, processName: string): (p: PropSet)
    ensures p == CertifiedForGms <==> processName == PROCESS_GMS_UNSTABLE
    ensures p == PixelSixPro <==>
      processName in PIXEL_SIX_PROCESSES
      || (processName !in LISTED_PROCESSES && (packageName == PACKAGE_GMS || packageName == PACKAGE_VELVET))
    ensures p == PixelXL <==> processName !in LISTED_PROCESSES && packageName == PACKAGE_GPHOTOS
  {
    if processName == PROCESS_GMS_UNSTABLE then CertifiedForGms
    else if processName in PIXEL_SIX_PROCESSES then PixelSixPro
    else if packageName == PACKAGE_GMS || packageName == PACKAGE_VELVET then PixelSixPro
    else if packageName == PACKAGE_GPHOTOS then PixelXL
    else NoProps
  }

  // ---------------------------------------------------------------- field targets

  datatype FieldOwner = BuildClass | VersionClass

  /** A static field of `Build` or of `Build.VERSION`. */
  datatype Target = Target(owner: FieldOwner, name: string)

  /** The declared fields of `Build` and `Build.VERSION` with their values. */
  type Fields = map<Target, string>

  const SECURITY_PATCH_FIELD := Target(VersionClass, "SECURITY_PATCH")
  const DEVICE_INITIAL_SDK_INT_FIELD := Target(VersionClass, "DEVICE_INITIAL_SDK_INT")

  /**
   * The field `setPropValue` writes for `key`: a `VERSION.` key names a field
   * of `Build.VERSION` with the prefix removed, any other key a field of `Build`.
   */
  function PropTarget(key: string): (t: Target)
    ensures t.owner == VersionClass <==> VERSION_PREFIX <= key
    ensures t.owner == VersionClass ==> VERSION_PREFIX + t.name == key
    ensures t.owner == BuildClass ==> t.name == key
  {
    if VERSION_PREFIX <= key then Target(VersionClass, key[8..]) else Target(BuildClass, key)
  }

  /** The key that names `t`. */
  function KeyOf(t: Target): string {
    if t.owner == VersionClass then VERSION_PREFIX + t.name else t.name
  }

  lemma KeyOfPropTarget(key: string)
    ensures KeyOf(PropTarget(key)) == key
  {
  }

  /** Every `Build.VERSION` field and every `Build` field without the prefix has a key. */
  lemma PropTargetOfKey(t: Target)
    requires t.owner == VersionClass || !(VERSION_PREFIX <= t.name)
    ensures PropTarget(KeyOf(t)) == t
  {
    if t.owner == VersionClass {
      var k := VERSION_PREFIX + t.name;
      assert VERSION_PREFIX <= k;
      assert k[8..] == t.name;
    }
  }

  /** Distinct keys write distinct fields, so the order of writes cannot matter. */
  lemma PropTargetInjective(k1: string, k2: string)
    requires PropTarget(k1) == PropTarget(k2)
    ensures k1 == k2
  {
    KeyOfPropTarget(k1);
    KeyOfPropTarget(k2);
  }

  /**
   * `setPropValue`: only a declared field is written; a missing one is
   * logged. Every value is written as text: the source's failed writes to a
   * field that is neither a String nor an int, or of an unparsable int, are
   * not modelled.
   */
  function WithPropValue(fields: Fields, key: string, value: string): (r: Fields)
    ensures r.Keys == fields.Keys
    ensures PropTarget(key) in fields ==> r[PropTarget(key)] == value
    ensures forall t :: t in fields && t != PropTarget(key) ==> r[t] == fields[t]
  {
    var t := PropTarget(key);
    if t in fields then fields[t := value] else fields
  }

  /** `t` is the field written for some key of `props`. */
  predicate Targeted(props: map<string, string>, t: Target) {
    KeyOf(t) in props && PropTarget(KeyOf(t)) == t
  }

  /** `setProps(Map)`: every key of `props` written to its field. */
  function WithProps(fields: Fields, props: map<string, string>): (r: Fields)
    ensures r.Keys == fields.Keys
    ensures forall k :: k in props && PropTarget(k) in fields ==> r[PropTarget(k)] == props[k]
    ensures forall t :: t in fields && !Targeted(props, t) ==> r[t] == fields[t]
  {
    AllKeysOfPropTargets();
    map t | t in fields :: if Targeted(props, t) then props[KeyOf(t)] else fields[t]
  }

  lemma AllKeysOfPropTargets()
    ensures forall k :: KeyOf(PropTarget(k)) == k
  {
  }

  function Restrict(props: map<string, string>, keys: set<string>): map<string, string> {
    map k | k in props && k in keys :: props[k]
  }

  /** Writing one more key of the map extends the set of written keys by it. */
  lemma {:induction false} WithPropsStep(fields: Fields, props: map<string, string>, done: set<string>, k: string)
    requires k in props && k !in done
    ensures WithPropValue(WithProps(fields, Restrict(props, done)), k, props[k])
         == WithProps(fields, Restrict(props, done + {k}))
  {
    var before := WithProps(fields, Restrict(props, done));
    var lhs := WithPropValue(before, k, props[k]);
    var rhs := WithProps(fields, Restrict(props, done + {k}));
    KeyOfPropTarget(k);
    forall t | t in fields
      ensures lhs[t] == rhs[t]
    {
      if t == PropTarget(k) {
        assert Targeted(Restrict(props, done + {k}), t);
      } else if KeyOf(t) == k {
        assert !Targeted(Restrict(props, done + {k}), t);
        assert !Targeted(Restrict(props, done), t);
      } else {
        assert Targeted(Restrict(props, done + {k}), t) == Targeted(Restrict(props, done), t);
      }
    }
  }

  // ---------------------------------------------------------------- certified entries

  /** A parsed `FIELD:value` entry. */
  datatype CertifiedEntry = CertifiedEntry(field: string, value: string)

  /** Index of the first `c` in `s`, or `|s|` when there is none. */
  function FirstIndexOf(s: string, c: char): (i: nat)
    ensures i <= |s|
    ensures i < |s| ==> s[i] == c
    ensures forall j :: 0 <= j < i ==> s[j] != c
    decreases |s|
  {
    if s == [] then 0
    else if s[0] == c then 0
    else 1 + FirstIndexOf(s[1..], c)
  }

  /**
   * `entry.split(":", 2)` followed by the length check: no colon means the
   * entry is skipped; otherwise the field is the text before the first colon
   * and the value everything after it, later colons included.
   */
  function ParseEntry(entry: string): (r: Option<CertifiedEntry>)
    ensures r.None? <==> ':' !in entry
    ensures r.Some? ==> ':' !in r.value.field && entry == r.value.field + ":" + r.value.value
  {
    var i := FirstIndexOf(entry, ':');
    if i == |entry| then None
    else
      assert entry == entry[..i] + ":" + entry[i + 1..];
      Some(CertifiedEntry(entry[..i], entry[i + 1..]))
  }

  /** Parsing undoes joining a colon-free field to any value. */
  lemma ParseJoinedEntry(field: string, value: string)
    requires ':' !in field
    ensures ParseEntry(field + ":" + value) == Some(CertifiedEntry(field, value))
  {
    var entry := field + ":" + value;
    assert entry[|field|] == ':';
    assert entry[..|field|] == field;
    assert entry[|field| + 1..] == value;
  }

  /** One iteration of the `setCertifiedProps` loop. */
  function WithCertifiedEntry(fields: Fields, entry: string): (r: Fields)
    ensures r.Keys == fields.Keys
  {
    match ParseEntry(entry)
    case None => fields
    case Some(e) => WithPropValue(fields, e.field, e.value)
  }

  /** The field map after the `setCertifiedProps` loop over `entries`. */
  function WithCertifiedEntries(fields: Fields, entries: seq<string>): (r: Fields)
    ensures r.Keys == fields.Keys
    decreases |entries|
  {
    if entries == [] then fields
    else WithCertifiedEntry(WithCertifiedEntries(fields, entries[..|entries| - 1]), entries[|entries| - 1])
  }

  /** A list made only of malformed entries writes nothing. */
  lemma {:induction false} MalformedEntriesWriteNothing(fields: Fields, entries: seq<string>)
    requires forall i :: 0 <= i < |entries| ==> ':' !in entries[i]
    ensures WithCertifiedEntries(fields, entries) == fields
    decreases |entries|
  {
    if entries != [] {
      MalformedEntriesWriteNothing(fields, entries[..|entries| - 1]);
    }
  }

  /** `entry` is well formed and its field name selects the field `t`. */
  predicate Writes(entry: string, t: Target) {
    ParseEntry(entry).Some? && PropTarget(ParseEntry(entry).value.field) == t
  }

  /** One iteration leaves alone every field its entry does not select. */
  lemma EntryKeepsOtherField(fields: Fields, entry: string, t: Target)
    requires t in fields && !Writes(entry, t)
    ensures WithCertifiedEntry(fields, entry)[t] == fields[t]
  {
  }

  /** The loop over `a + b` is the loop over `a` followed by the loop over `b`. */
  lemma {:induction false} WithCertifiedEntriesAppend(fields: Fields, a: seq<string>, b: seq<string>)
    ensures WithCertifiedEntries(fields, a + b) == WithCertifiedEntries(WithCertifiedEntries(fields, a), b)
    decreases |b|
  {
    if b == [] {
      assert a + b == a;
    } else {
      var ab := a + b;
      assert ab[..|ab| - 1] == a + b[..|b| - 1];
      assert ab[|ab| - 1] == b[|b| - 1];
      WithCertifiedEntriesAppend(fields, a, b[..|b| - 1]);
    }
  }

  /** A field that no well-formed entry selects keeps its old value. */
  lemma {:induction false} UnselectedFieldKept(fields: Fields, entries: seq<string>, t: Target)
    requires t in fields
    requires forall i :: 0 <= i < |entries| ==> !Writes(entries[i], t)
    ensures WithCertifiedEntries(fields, entries)[t] == fields[t]
    decreases |entries|
  {
    if entries != [] {
      var init := entries[..|entries| - 1];
      assert forall i :: 0 <= i < |init| ==> init[i] == entries[i];
      UnselectedFieldKept(fields, init, t);
      EntryKeepsOtherField(WithCertifiedEntries(fields, init), entries[|entries| - 1], t);
    }
  }

  /** An entry at the end of the list sets its declared field. */
  lemma FinalEntryWins(fields: Fields, entries: seq<string>, field: string, value: string)
    requires ':' !in field && PropTarget(field) in fields
    ensures WithCertifiedEntries(fields, entries + [field + ":" + value])[PropTarget(field)] == value
  {
    var all := entries + [field + ":" + value];
    assert all[..|all| - 1] == entries;
    ParseJoinedEntry(field, value);
  }

  /**
   * The last well-formed entry for a declared field decides its value:
   * entries after it that are malformed or select other fields leave it alone.
   */
  lemma LastEntryWins(fields: Fields, entries: seq<string>, field: string, value: string, rest: seq<string>)
    requires ':' !in field && PropTarget(field) in fields
    requires forall i :: 0 <= i < |rest| ==> !Writes(rest[i], PropTarget(field))
    ensures WithCertifiedEntries(fields, entries + [field + ":" + value] + rest)[PropTarget(field)] == value
  {
    var head := entries + [field + ":" + value];
    FinalEntryWins(fields, entries, field, value);
    WithCertifiedEntriesAppend(fields, head, rest);
    UnselectedFieldKept(WithCertifiedEntries(fields, head), rest, PropTarget(field));
  }

  // ---------------------------------------------------------------- feature and attestation rules

  /** Java's `String.contains`. */
  predicate Contains(s: string, sub: string)
    decreases |s|
  {
    sub <= s || (s != [] && Contains(s[1..], sub))
  }

  /** A position where `sub` starts, for a string that contains it. */
  lemma {:induction false} ContainsWitness(s: string, sub: string) returns (i: nat)
    requires Contains(s, sub)
    ensures i <= |s| && sub <= s[i..]
    decreases |s|
  {
    if sub <= s {
      i := 0;
    } else {
      var j := ContainsWitness(s[1..], sub);
      assert s[1..][j..] == s[j + 1..];
      i := j + 1;
    }
  }

  /** A string contains whatever starts at one of its positions. */
  lemma {:induction false} ContainsFrom(s: string, sub: string, i: nat)
    requires i <= |s| && sub <= s[i..]
    ensures Contains(s, sub)
    decreases i
  {
    if i > 0 {
      assert s[1..][i - 1..] == s[i..];
      ContainsFrom(s[1..], sub, i - 1);
    }
  }

  /** `Contains` agrees with "`sub` starts at some position of `s`". */
  lemma ContainsAt(s: string, sub: string)
    ensures Contains(s, sub) <==> exists i :: 0 <= i <= |s| && sub <= s[i..]
  {
    if Contains(s, sub) {
      var i := ContainsWitness(s, sub);
    }
    forall i | 0 <= i <= |s| && sub <= s[i..]
      ensures Contains(s, sub)
    {
      ContainsFrom(s, sub, i);
    }
  }

  /** `features.stream().anyMatch(name::contains)` */
  predicate AnyContained(name: string, features: set<string>) {
    exists f :: f in features && Contains(name, f)
  }

  /**
   * `hasSystemFeature`, with `isPhotos` the value of `sIsPhotos`: only Google
   * Photos is affected; it loses any Pixel or Tensor feature it has and gains
   * any Nexus feature it lacks.
   */
  function HasSystemFeature(isPhotos: bool, name: string, has: bool): (r: bool)
    ensures !isPhotos ==> r == has
    ensures isPhotos && has ==>
      (r <==> !AnyContained(name, PIXEL_FEATURES) && !AnyContained(name, TENSOR_FEATURES))
    ensures isPhotos && !has ==> (r <==> AnyContained(name, NEXUS_FEATURES))
  {
    if isPhotos && has && (AnyContained(name, PIXEL_FEATURES) || AnyContained(name, TENSOR_FEATURES)) then false
    else if isPhotos && !has && AnyContained(name, NEXUS_FEATURES) then true
    else has
  }

  lemma PhotosLosesTensorFeature()
    ensures !HasSystemFeature(true, "com.google.android.feature.PIXEL_2021_EXPERIENCE", true)
  {
    var name := "com.google.android.feature.PIXEL_2021_EXPERIENCE";
    assert "PIXEL_2021_EXPERIENCE" <= name[27..];
    ContainsAt(name, "PIXEL_2021_EXPERIENCE");
    assert "PIXEL_2021_EXPERIENCE" in TENSOR_FEATURES;
  }

  lemma PhotosGainsNexusFeature()
    ensures HasSystemFeature(true, "com.google.android.feature.GOOGLE_BUILD", false)
  {
    var name := "com.google.android.feature.GOOGLE_BUILD";
    assert "GOOGLE_BUILD" <= name[27..];
    ContainsAt(name, "GOOGLE_BUILD");
    assert "GOOGLE_BUILD" in NEXUS_FEATURES;
  }

  /**
   * `isCallerSafetyNet`, with `isGms` the value of `sIsGms` and `stack` the
   * class names of the current stack trace.
   */
  function IsCallerSafetyNet(isGms: bool, stack: seq<string>): (r: bool)
    ensures r ==> isGms
    ensures r <==> isGms && exists i, j :: 0 <= i < |stack| && 0 <= j <= |stack[i]| && "DroidGuard" <= stack[i][j..]
  {
    AnyFrameContainsAt(stack, "DroidGuard");
    isGms && exists i :: 0 <= i < |stack| && Contains(stack[i], "DroidGuard")
  }

  /** Some name of `names` contains `sub` iff `sub` starts at a position of one of them. */
  lemma AnyFrameContainsAt(names: seq<string>, sub: string)
    ensures (exists i :: 0 <= i < |names| && Contains(names[i], sub))
        <==> exists i, j :: 0 <= i < |names| && 0 <= j <= |names[i]| && sub <= names[i][j..]
  {
    forall i | 0 <= i < |names| {
      ContainsAt(names[i], sub);
    }
  }

  /**
   * `onEngineGetCertificateChain`: true when it throws
   * `UnsupportedOperationException`, i.e. attestation is refused to a
   * DroidGuard caller in the GMS unstable process and to the Play Store.
   */
  function CertificateChainBlocked(isGms: bool, isFinsky: bool, stack: seq<string>): (blocked: bool)
    ensures blocked ==> isGms || isFinsky
    ensures isFinsky ==> blocked
    ensures !isFinsky ==> (blocked <==> isGms && exists i :: 0 <= i < |stack| && Contains(stack[i], "DroidGuard"))
  {
    IsCallerSafetyNet(isGms, stack) || isFinsky
  }

  // ---------------------------------------------------------------- the hook state

  /** The static fields of PropImitationHooks together with the state they write. */
  class PropImitationHooks {
    var certifiedProps: seq<string>
    var processName: string
    var isGms: bool
    var isFinsky: bool
    var isPhotos: bool
    /** `Build` and `Build.VERSION`. */
    var fields: Fields
    var systemProperties: map<string, string>
    /** The `was` value captured by each registered task-stack listener. */
    var taskStackListeners: seq<bool>

    ghost predicate Valid()
      reads this
    {
      SECURITY_PATCH_FIELD in fields && DEVICE_INITIAL_SDK_INT_FIELD in fields
    }

    constructor (buildFields: Fields, properties: map<string, string>)
      requires SECURITY_PATCH_FIELD in buildFields && DEVICE_INITIAL_SDK_INT_FIELD in buildFields
      ensures Valid()
      ensures certifiedProps == [] && processName == ""
      ensures !isGms && !isFinsky && !isPhotos
      ensures fields == buildFields && systemProperties == properties && taskStackListeners == []
    {
      certifiedProps := [];
      processName := "";
      isGms, isFinsky, isPhotos := false, false, false;
      fields := buildFields;
      systemProperties := properties;
      taskStackListeners := [];
    }

    /** `setPropValue(key, value)`. */
    method SetPropValue(key: string, value: string)
      requires Valid()
      modifies this`fields
      ensures Valid()
      ensures fields == WithPropValue(old(fields), key, value)
    {
      var target := Target(BuildClass, key);
      if VERSION_PREFIX <= key {
        target := Target(VersionClass, key[8..]);
      }
      if target in fields {
        fields := fields[target := value];
      }
    }

    /** `setProps(Map)`: `forEach` over the map, in whatever order it yields. */
    method SetPropsFrom(props: map<string, string>)
      requires Valid()
      modifies this`fields
      ensures Valid()
      ensures fields == WithProps(old(fields), props)
    {
      var todo := props.Keys;
      assert Restrict(props, {}) == map[];
      assert WithProps(fields, map[]) == fields;
      while todo != {}
        invariant todo <= props.Keys
        invariant fields == WithProps(old(fields), Restrict(props, props.Keys - todo))
        decreases todo
      {
        var k :| k in todo;
        WithPropsStep(old(fields), props, props.Keys - todo, k);
        SetPropValue(k, props[k]);
        assert props.Keys - (todo - {k}) == (props.Keys - todo) + {k};
        todo := todo - {k};
      }
      assert Restrict(props, props.Keys) == props;
    }

    /** The entry loop of `setCertifiedProps`. */
    method WriteCertifiedEntries()
      requires Valid()
      modifies this`fields
      ensures Valid()
      ensures fields == WithCertifiedEntries(old(fields), certifiedProps)
    {
      ghost var start := fields;
      for i := 0 to |certifiedProps|
        invariant fields == WithCertifiedEntries(start, certifiedProps[..i])
      {
        ghost var done := certifiedProps[..i + 1];
        assert done[..|done| - 1] == certifiedProps[..i];
        var fieldAndProp := ParseEntry(certifiedProps[i]);
        if fieldAndProp.Some? {
          SetPropValue(fieldAndProp.value.field, fieldAndProp.value.value);
        }
      }
      assert certifiedProps[..|certifiedProps|] == certifiedProps;
    }

    /** `setCertifiedProps`: the entry loop, then the two system properties. */
    method SetCertifiedProps()
      requires Valid()
      modifies this`fields, this`systemProperties
      ensures Valid()
      ensures fields == WithCertifiedEntries(old(fields), certifiedProps)
      ensures systemProperties == old(systemProperties)
        [PROP_SECURITY_PATCH := fields[SECURITY_PATCH_FIELD]]
        [PROP_FIRST_API_LEVEL := fields[DEVICE_INITIAL_SDK_INT_FIELD]]
    {
      WriteCertifiedEntries();
      systemProperties := systemProperties[PROP_SECURITY_PATCH := fields[SECURITY_PATCH_FIELD]];
      systemProperties := systemProperties[PROP_FIRST_API_LEVEL := fields[DEVICE_INITIAL_SDK_INT_FIELD]];
    }

    /**
     * `setCertifiedPropsForGms`, with `addAccountOnTop` the answer of
     * `isGmsAddAccountActivityOnTop` and `registerOk` whether registering the
     * task-stack listener succeeded.
     */
    method SetCertifiedPropsForGms(addAccountOnTop: bool, registerOk: bool)
      requires Valid()
      modifies this`fields, this`systemProperties, this`taskStackListeners
      ensures Valid()
      ensures |certifiedProps| == 0 || addAccountOnTop ==>
        fields == old(fields) && systemProperties == old(systemProperties)
      ensures |certifiedProps| != 0 && !addAccountOnTop ==>
        && fields == WithCertifiedEntries(old(fields), certifiedProps)
        && systemProperties == old(systemProperties)
             [PROP_SECURITY_PATCH := fields[SECURITY_PATCH_FIELD]]
             [PROP_FIRST_API_LEVEL := fields[DEVICE_INITIAL_SDK_INT_FIELD]]
      ensures taskStackListeners ==
        if |certifiedProps| != 0 && registerOk then old(taskStackListeners) + [addAccountOnTop]
        else old(taskStackListeners)
    {
      if |certifiedProps| == 0 {
        return;
      }
      var was := addAccountOnTop;
      if !was {
        SetCertifiedProps();
      }
      if registerOk {
        taskStackListeners := taskStackListeners + [was];
      }
    }

    /**
     * The listeners' `onTaskStackChanged`: true when some listener kills the
     * process because the add-account activity's presence on top has flipped.
     */
    method OnTaskStackChanged(isOnTop: bool) returns (killProcess: bool)
      ensures killProcess <==> exists i :: 0 <= i < |taskStackListeners| && taskStackListeners[i] != isOnTop
    {
      killProcess := false;
      for i := 0 to |taskStackListeners|
        invariant killProcess <==> exists j :: 0 <= j < i && taskStackListeners[j] != isOnTop
      {
        if taskStackListeners[i] != isOnTop {
          killProcess := true;
        }
      }
    }

    /** The branch of `setProps(Context)` taken for property set `p`. */
    method ApplyPropSet(p: PropSet, addAccountOnTop: bool, registerOk: bool)
      requires Valid()
      modifies this`fields, this`systemProperties, this`taskStackListeners
      ensures Valid()
      ensures p == PixelSixPro ==> fields == WithProps(old(fields), PIXEL_SIX_PROPS)
      ensures p == PixelXL ==> fields == WithProps(old(fields), PIXEL_XL_PROPS)
      ensures p == NoProps ==> fields == old(fields)
      ensures p != CertifiedForGms ==>
        systemProperties == old(systemProperties) && taskStackListeners == old(taskStackListeners)
      ensures p == CertifiedForGms ==>
        if |certifiedProps| == 0 || addAccountOnTop then
          fields == old(fields) && systemProperties == old(systemProperties)
        else
          fields == WithCertifiedEntries(old(fields), certifiedProps)
          && systemProperties == old(systemProperties)
               [PROP_SECURITY_PATCH := fields[SECURITY_PATCH_FIELD]]
               [PROP_FIRST_API_LEVEL := fields[DEVICE_INITIAL_SDK_INT_FIELD]]
      ensures p == CertifiedForGms ==>
        taskStackListeners ==
          if |certifiedProps| != 0 && registerOk then old(taskStackListeners) + [addAccountOnTop]
          else old(taskStackListeners)
    {
      match p {
        case CertifiedForGms => SetCertifiedPropsForGms(addAccountOnTop, registerOk);
        case PixelSixPro => SetPropsFrom(PIXEL_SIX_PROPS);
        case PixelXL => SetPropsFrom(PIXEL_XL_PROPS);
        case NoProps =>
      }
    }

    /**
     * `setProps(Context)`. An empty package or process name (null included)
     * or missing resources return before any static is set.
     */
    method SetProps(
      packageName: string, processName: string, resources: Option<seq<string>>,
      addAccountOnTop: bool, registerOk: bool)
      requires Valid()
      modifies this
      ensures Valid()
      ensures packageName == "" || processName == "" || resources.None? ==>
        && certifiedProps == old(certifiedProps) && this.processName == old(this.processName)
        && isGms == old(isGms) && isFinsky == old(isFinsky) && isPhotos == old(isPhotos)
        && fields == old(fields) && systemProperties == old(systemProperties)
        && taskStackListeners == old(taskStackListeners)
      ensures packageName != "" && processName != "" && resources.Some? ==>
        && certifiedProps == resources.value
        && this.processName == processName
        && isGms == (packageName == PACKAGE_GMS && processName == PROCESS_GMS_UNSTABLE)
        && isFinsky == (packageName == PACKAGE_FINSKY)
        && isPhotos == (packageName == PACKAGE_GPHOTOS)
        && (Dispatch(packageName, processName) == PixelSixPro ==>
              fields == WithProps(old(fields), PIXEL_SIX_PROPS))
        && (Dispatch(packageName, processName) == PixelXL ==>
              fields == WithProps(old(fields), PIXEL_XL_PROPS))
        && (Dispatch(packageName, processName) == NoProps ==> fields == old(fields))
        && (Dispatch(packageName, processName) != CertifiedForGms ==>
              systemProperties == old(systemProperties) && taskStackListeners == old(taskStackListeners))
        && (Dispatch(packageName, processName) == CertifiedForGms ==>
              if |certifiedProps| == 0 || addAccountOnTop then
                fields == old(fields) && systemProperties == old(systemProperties)
              else
                fields == WithCertifiedEntries(old(fields), certifiedProps)
                && systemProperties == old(systemProperties)
                     [PROP_SECURITY_PATCH := fields[SECURITY_PATCH_FIELD]]
                     [PROP_FIRST_API_LEVEL := fields[DEVICE_INITIAL_SDK_INT_FIELD]])
        && (Dispatch(packageName, processName) == CertifiedForGms ==>
              taskStackListeners ==
                if |certifiedProps| != 0 && registerOk then old(taskStackListeners) + [addAccountOnTop]
                else old(taskStackListeners))
    {
      if packageName == "" || processName == "" {
        return;
      }
      if resources.None? {
        return;
      }
      certifiedProps := resources.value;
      this.processName := processName;
      isGms := packageName == PACKAGE_GMS && processName == PROCESS_GMS_UNSTABLE;
      isFinsky := packageName == PACKAGE_FINSKY;
      isPhotos := packageName == PACKAGE_GPHOTOS;

      ApplyPropSet(Dispatch(packageName, processName), addAccountOnTop, registerOk);
    }
  }
}
