/**
 * The parts of a `std::ofstream` that the logger relies on, as values: whether the
 * stream is open and on which path, its fail state, and the lines it has appended
 * to the files of the disk.  The semantics follow the C++ standard library:
 *  - `open` on a stream that is already open fails and sets the fail state, leaving
 *    the stream open on its previous file;
 *  - a successful `open` clears the fail state, a failed one sets it;
 *  - `close` on a stream that is not open sets the fail state;
 *  - inserting into a stream whose fail state is set writes nothing.
 * Whether the operating system lets the file be opened is not known to the model: it
 * is the parameter `success`.
 */
module FileStream {

  /** Contents of every file, one entry per line written (each line ends in "\n"). */
  type Disk = map<string, seq<string>>

  datatype Handle = Closed(failed: bool) | Open(path: string, failed: bool)

  /** The lines of the file at `path`; a file that does not exist reads as empty. */
  function Contents(disk: Disk, path: string): seq<string> {
    if path in disk then disk[path] else []
  }

  /** `ofstream::is_open`: a stream that is not open writes nothing. */
  predicate IsOpen(h: Handle)
    ensures !IsOpen(h) ==> forall disk, line :: WriteLine(h, disk, line) == disk
  {
    h.Open?
  }

  /** `ofstream::open(path, std::ios::app)`: the new handle and the disk afterwards. */
  function OpenAppend(h: Handle, disk: Disk, path: string, success: bool): (r: (Handle, Disk))
    ensures h.Open? ==> r == (h.(failed := true), disk)
    ensures !h.Open? && success ==>
              r.0 == Open(path, false) && Contents(r.1, path) == Contents(disk, path) && path in r.1
    ensures !h.Open? && !success ==> r == (Closed(true), disk)
    ensures forall p :: Contents(r.1, p) == Contents(disk, p)
  {
    if h.Open? then (h.(failed := true), disk)
    else if success then (Open(path, false), disk[path := Contents(disk, path)])
    else (Closed(true), disk)
  }

  /** `ofstream::close`. */
  function Close(h: Handle): (r: Handle)
    ensures !r.Open?
    ensures h.Open? ==> r.failed == h.failed
    ensures !h.Open? ==> r.failed
  {
    match h
    case Open(_, failed) => Closed(failed)
    case Closed(_) => Closed(true)
  }

  /** `logFile << line << std::endl`: the disk afterwards. */
  function WriteLine(h: Handle, disk: Disk, line: string): (r: Disk)
    ensures h.Open? && !h.failed ==>
              Contents(r, h.path) == Contents(disk, h.path) + [line + "\n"]
    ensures forall p :: (h.Open? && !h.failed ==> p != h.path) ==> Contents(r, p) == Contents(disk, p)
  {
    if h.Open? && !h.failed then disk[h.path := Contents(disk, h.path) + [line + "\n"]]
    else disk
  }
}
