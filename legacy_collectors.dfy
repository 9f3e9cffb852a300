/** What src/collectors.rs, the earlier revision of the built-in collectors,
    does differently from src/collector.rs: the version line has no
    revision suffix, and the operating system comes from two queries, one of
    which may fail the collection. Its other collectors are those of module
    Collector with `escape` standing for the other quoting library. */
module LegacyCollectors {
  import opened Wrappers
  import opened Entries
  import Collector

  /** `SoftwareVersion` of the earlier revision. */
  datatype SoftwareVersion = SoftwareVersion(version: Option<string>) {

    static function Default(): SoftwareVersion { SoftwareVersion(None) }

    static function Custom(version: string): SoftwareVersion { SoftwareVersion(Some(version)) }

    function Description(): string { "Software version" }

    function Collect(info: Collector.CrateInfo): (r: Result<ReportEntry, Collector.CollectionError>)
      ensures r.Ok? && r.value.Text?
      ensures version.Some? ==> r.value.content == info.pkgName + " " + version.value
      ensures version.None? ==> r.value.content == info.pkgName + " " + info.pkgVersion
    {
      Ok(Text(info.pkgName + " " + version.UnwrapOr(info.pkgVersion)))
    }
  }

  /** The later revision only appends " (<revision>)" when a revision is
      known; otherwise both revisions report the same line. */
  lemma RevisionSuffixIsTheOnlyChange(version: Option<string>, info: Collector.CrateInfo)
    ensures var later := Collector.SoftwareVersion(version).Collect(info).value.content;
      var earlier := SoftwareVersion(version).Collect(info).value.content;
      && (info.gitHash.None? ==> later == earlier)
      && (info.gitHash.Some? ==> later == earlier + " (" + info.gitHash.value + ")")
  {
  }

  /** `OperatingSystem` of the earlier revision: `osType` and `osRelease`
      are the results of the two system queries (None when the query
      failed). */
  datatype OperatingSystem = OperatingSystem {

    function Description(): string { "Operating system" }

    function Collect(osType: Option<string>, osRelease: Option<string>)
      : (r: Result<ReportEntry, Collector.CollectionError>)
      ensures r.Err? <==> osType.None?
      ensures r.Err? ==> r.error == Collector.CouldNotRetrieve("Operating system type")
      ensures r.Ok? && osRelease.Some? ==> r.value == Text(osType.value + " " + osRelease.value)
      ensures r.Ok? && osRelease.None? ==> r.value == Text(osType.value + " (unknown version)")
    {
      match osType
      case None => Err(Collector.CouldNotRetrieve("Operating system type"))
      case Some(t) =>
        assert t + " " + "(unknown version)" == t + " (unknown version)";
        Ok(Text(t + " " + osRelease.UnwrapOr("(unknown version)")))
    }
  }

  /** The headings of the two collectors of the earlier revision that differ
      from the later one; they are unchanged. */
  lemma Descriptions(version: Option<string>)
    ensures SoftwareVersion(version).Description() == Collector.SoftwareVersion(version).Description() == "Software version"
    ensures OperatingSystem.OperatingSystem.Description() == Collector.OperatingSystem.OperatingSystem.Description() == "Operating system"
  {
  }
}
