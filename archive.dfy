/** Names of archived images and the GOOD/BAD relabelling of the latest one. */
module Archive {
  import opened Common
  import opened PosixPath

  const ArchiveDir: Path := "archive"

  /** `f"latest_{val}_{timestamp}.jpg"`. */
  function ArchiveName(valueText: string, timestamp: string): string
  {
    "latest_" + valueText + "_" + timestamp + ".jpg"
  }

  /** The stem of an archive path: everything before ".jpg". */
  function ArchiveStem(valueText: string, timestamp: string): Path
  {
    ArchiveDir + "/latest_" + valueText + "_" + timestamp
  }

  /** `os.path.join(archive_dir, archive_filename)`: a path under the archive directory ending ".jpg". */
  function ArchivePath(valueText: string, timestamp: string): (p: Path)
    ensures p == ArchiveStem(valueText, timestamp) + ".jpg"
  {
    Join(ArchiveDir, ArchiveName(valueText, timestamp))
  }

  /** `f"{base}{tag}{ext}"` with `base, ext = os.path.splitext(path)`. */
  function Relabelled(path: Path, tag: string): (r: Path)
    ensures |r| == |path| + |tag|
  {
    var (base, ext) := SplitExt(path);
    base + tag + ext
  }

  /** The timestamp format "%Y%m%d_%H%M%S" ends with a digit; any end but '.' or '/' will do. */
  predicate PlainEnd(s: string)
  {
    s == [] || EndsPlain(s)
  }

  /** Relabelling inserts the tag just before the extension of a plain-stemmed path. */
  lemma RelabelStem(q: Path, ext: string, tag: string)
    requires EndsPlain(q) && IsExtension(ext)
    ensures Relabelled(q + ext, tag) == q + tag + ext
  {
    SplitExtOfStem(q, ext);
  }

  /** Relabelling an archive path puts the tag between the timestamp and ".jpg". */
  lemma RelabelArchivePath(valueText: string, timestamp: string, tag: string)
    requires PlainEnd(timestamp)
    ensures Relabelled(ArchivePath(valueText, timestamp), tag)
            == ArchiveStem(valueText, timestamp) + tag + ".jpg"
  {
    var q := ArchiveStem(valueText, timestamp);
    assert q[|q| - 1] == (if timestamp == [] then '_' else timestamp[|timestamp| - 1]);
    RelabelStem(q, ".jpg", tag);
  }

  /**
   * A second relabel with the same tag appends the tag again: marking an
   * archive GOOD twice yields "..._GOOD_GOOD.jpg".
   */
  lemma RelabelTwice(valueText: string, timestamp: string, tag: string)
    requires PlainEnd(timestamp) && PlainEnd(tag)
    ensures Relabelled(Relabelled(ArchivePath(valueText, timestamp), tag), tag)
            == ArchiveStem(valueText, timestamp) + tag + tag + ".jpg"
  {
    var q := ArchiveStem(valueText, timestamp);
    RelabelArchivePath(valueText, timestamp, tag);
    assert (q + tag)[|q + tag| - 1] == (if tag == [] then q[|q| - 1] else tag[|tag| - 1]);
    assert q[|q| - 1] == (if timestamp == [] then '_' else timestamp[|timestamp| - 1]);
    RelabelStem(q + tag, ".jpg", tag);
  }
}
