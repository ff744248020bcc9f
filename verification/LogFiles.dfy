/** Log file identities. Two spellings of one Windows path name the same file: the verbatim
    drive and UNC prefixes are folded into the ordinary ones before comparing. */
module LogFiles {

  datatype Prefix =
    | NoPrefix
    | Disk(drive: char)
    | VerbatimDisk(drive: char)
    | Share(server: string, share: string)
    | VerbatimShare(server: string, share: string)
    | OtherPrefix(text: string)

  datatype Path = Path(prefix: Prefix, components: seq<string>)

  datatype LogFile = LogFile(path: Path, size: nat, lastWrite: int)

  function FoldPrefix(prefix: Prefix): Prefix {
    match prefix
    case VerbatimDisk(drive) => Disk(drive)
    case VerbatimShare(server, share) => Share(server, share)
    case _ => prefix
  }

  /** The identity under which a file is compared, hashed and deduplicated. */
  function Key(file: LogFile): LogFile {
    file.(path := file.path.(prefix := FoldPrefix(file.path.prefix)))
  }

  predicate EmptyPath(path: Path) {
    path.prefix.NoPrefix? && path.components == []
  }

  function LowerAscii(c: char): char {
    if 'A' <= c <= 'Z' then (c as int + 32) as char else c
  }

  /** A name with a stem and the extension `zevtc`, in any ASCII case. */
  predicate IsZevtcName(name: string) {
    |name| > 6 && name[|name| - 6] == '.'
    && LowerAscii(name[|name| - 5]) == 'z' && LowerAscii(name[|name| - 4]) == 'e'
    && LowerAscii(name[|name| - 3]) == 'v' && LowerAscii(name[|name| - 2]) == 't'
    && LowerAscii(name[|name| - 1]) == 'c'
  }

  predicate IsZevtcCandidate(path: Path) {
    path.components != [] && IsZevtcName(path.components[|path.components| - 1])
  }
}
