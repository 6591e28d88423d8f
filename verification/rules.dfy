/** The assertions inside the suite's `it` blocks, one predicate per block
    (the conjunction of its `expect`s: chai stops a block at its first failed
    assertion). Version records are checked in one of two modes. */
module Rules {
  import opened Json
  import opened Chai
  import opened Strings
  import opened Report

  /** The OS keys a plugin's `versions` object may use. */
  const OsNames: seq<string> := ["win", "mac", "lin", "all"]

  /** The `app_version` values allowed in a platform descriptor. */
  const AppVersions: seq<string> := ["*", "Continuous DC"]

  /** The status values each record list accepts. */
  function Statuses(mode: Mode): seq<string>
  {
    match mode
    case Latest => ["latest", "vulnerable"]
    case Vulnerable => ["vulnerable"]
  }

  /** The `app_release` values each record list accepts. */
  function AppReleases(mode: Mode): seq<string>
  {
    match mode
    case Latest => ["*"]
    case Vulnerable => ["*", "Extended Release Version"]
  }

  /** must be a known version: `oneOf` on the for-in key. The keys of an
      array are decimal indices, which are never one of the OS names. */
  predicate KnownOsKey(os: Key)
  {
    os.Name? && OneOfStrings(Some(JString(os.name)), OsNames)
  }

  /** must have a latest version */
  predicate HasLatest(group: Json)
  {
    IsArray(Prop(Some(group), "latest"))
  }

  /** must have a valid status: `oneOf(['latest', 'vulnerable'])` in the
      latest list, `equal('vulnerable')` in the vulnerable list. */
  predicate StatusOk(mode: Mode, record: Json)
  {
    var status := Prop(Some(record), "status");
    match mode
    case Latest => OneOfStrings(status, Statuses(Latest))
    case Vulnerable => EqualsString(status, "vulnerable")
  }

  /** The condition evaluated while the suite is being collected: the
      "describe the vulnerability" block exists only for a record whose
      status is strictly equal to "vulnerable". */
  predicate DeclaresVulnerable(record: Json)
  {
    Prop(Some(record), "status") == Some(JString("vulnerable"))
  }

  /** must describe the vulnerability */
  predicate VulnerabilityDescribed(record: Json)
  {
    IsString(Prop(Some(record), "vulnerability_url"))
  }

  /** must define an affected version: a string that splits on '.' into
      fewer than five pieces. Each piece is then passed through `Number`
      and asserted to be a number, which holds of every string (`NaN` is a
      number), so that loop adds no condition. */
  predicate AffectedVersionOk(record: Json)
  {
    var v := Prop(Some(record), "version");
    IsString(v) && |Split(v.value.s, '.')| < 5
  }

  /** must define a detection_type */
  predicate DetectionTypeOk(record: Json)
  {
    IsString(Prop(Some(record), "detection_type"))
  }

  /** must define a platform: a `platform` property that is an object whose
      `app_id`, `app_release`, `app_version` and `locale` take the allowed
      literal values; only `app_release` depends on the mode. */
  predicate PlatformOk(mode: Mode, record: Json)
  {
    var p := Prop(Some(record), "platform");
    && IsObject(p)
    && EqualsString(Prop(p, "app_id"), "*")
    && (match mode
        case Latest => EqualsString(Prop(p, "app_release"), "*")
        case Vulnerable => OneOfStrings(Prop(p, "app_release"), AppReleases(Vulnerable)))
    && OneOfStrings(Prop(p, "app_version"), AppVersions)
    && EqualsString(Prop(p, "locale"), "*")
  }

  /** must check for known mime types: `mimes` is an array and each of its
      elements is `oneOf` the top-level `mime_types`. */
  predicate KnownMimesOk(mimes: Option<Json>, mimeTypes: Option<Json>)
  {
    && IsArray(mimes)
    && forall i :: 0 <= i < |mimes.value.elements| ==> OneOf(Some(mimes.value.elements[i]), mimeTypes)
  }

  /** must provide a regex: an array of strings. */
  predicate RegexOk(regex: Option<Json>)
  {
    && IsArray(regex)
    && forall i :: 0 <= i < |regex.value.elements| ==> IsString(Some(regex.value.elements[i]))
  }
}
