/** The catalog schema stated declaratively, by quantifying over the keys
    and values of the document rather than by walking it: the reference the
    generated suite is proved against. */
module Schema {
  import opened Json
  import opened Chai
  import opened Report
  import opened Rules

  /** A version record passes every check of its list's mode. */
  predicate RecordOk(mode: Mode, record: Json)
  {
    && StatusOk(mode, record)
    && (DeclaresVulnerable(record) ==> VulnerabilityDescribed(record))
    && AffectedVersionOk(record)
    && DetectionTypeOk(record)
    && PlatformOk(mode, record)
  }

  /** Every record a `for...in` over `list` reaches passes. */
  ghost predicate RecordListOk(mode: Mode, list: Option<Json>)
  {
    forall x :: IsChild(x, list) ==> RecordOk(mode, x)
  }

  /** The group under one OS key: a `latest` array and an optional
      `vulnerable` list, every record of each valid for its mode. */
  ghost predicate GroupOk(group: Json)
  {
    var latest := Prop(Some(group), "latest");
    && IsArray(latest)
    && RecordListOk(Latest, latest)
    && RecordListOk(Vulnerable, Prop(Some(group), "vulnerable"))
  }

  /** `versions` is an object, possibly empty, whose every key is an OS name
      and whose every group is valid. */
  ghost predicate VersionsOk(versions: Option<Json>)
  {
    && IsObject(versions)
    && forall os :: HasKey(versions.value.members, os) ==>
         os in OsNames && GroupOk(Member(versions.value.members, os))
  }

  ghost predicate PluginOk(plugin: Json, mimeTypes: Option<Json>)
  {
    var p := Some(plugin);
    && plugin.JObject?
    && IsString(Prop(p, "display_name"))
    && IsString(Prop(p, "description"))
    && VersionsOk(Prop(p, "versions"))
    && KnownMimesOk(Prop(p, "mimes"), mimeTypes)
    && IsString(Prop(p, "url"))
    && RegexOk(Prop(p, "regex"))
  }

  /** A valid catalog: a non-empty `mime_types` array of values including
      "/", and a non-empty `plugins` object of valid plugins. */
  ghost predicate CatalogOk(doc: Json)
  {
    var mimeTypes := Prop(Some(doc), "mime_types");
    var plugins := Prop(Some(doc), "plugins");
    && IsArray(mimeTypes)
    && |mimeTypes.value.elements| > 0
    && (forall m :: m in mimeTypes.value.elements ==> Includes(m, "/"))
    && IsObject(plugins)
    && |plugins.value.members| > 0
    && forall name :: HasKey(plugins.value.members, name) ==>
         PluginOk(Member(plugins.value.members, name), mimeTypes)
  }
}
