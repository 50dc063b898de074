/**
 * The outside world the page cache talks to: a file system of files and
 * directories with modification times, a transport whose every request is
 * logged, and the host functions the library calls but does not define
 * (the MD5 hex digest of RFC 1321 and `os.path.abspath`).
 */
module FileStore {
  import opened Python

  /** Host functions, left uninterpreted. */
  datatype Platform = Platform(md5Hex: string -> string, absPath: string -> string)

  /** A file-system entry; its modification time is in whole seconds. */
  datatype Node = File(content: string, mtime: int) | Dir(mtime: int)

  /** What one page load does: its result, the file system after it, and whether the transport was called. */
  datatype Outcome = Outcome(result: Result<(string, string)>, nodes: map<string, Node>, fetched: bool)

  /**
   * The write half of a download: make the directory `dir` when it is
   * missing (`os.makedirs('')` fails), refuse it with `notDir` when it is
   * not a directory, then write `body` at `p` (refused when `p` is a
   * directory).
   */
  function SaveUnder(nodes: map<string, Node>, now: int, dir: string, p: string, body: string, notDir: Error): (o: Outcome)
    ensures o.fetched
    ensures o.result.Ok? ==>
      (o.result.value == (p, body) && dir != "" && p != dir
       && o.nodes == (if dir in nodes then nodes else nodes[dir := Dir(now)])[p := File(body, now)]
       && dir in o.nodes && o.nodes[dir].Dir? && p in o.nodes && o.nodes[p] == File(body, now))
    ensures o.result.Err? ==> o.result.error == OSError || o.result.error == notDir
    ensures dir != "" && dir in nodes && nodes[dir].Dir? && !(p in nodes && nodes[p].Dir?) ==> o.result.Ok?
  {
    if dir == "" then Outcome(Err(OSError), nodes, true)
    else
      var made := if dir in nodes then nodes else nodes[dir := Dir(now)];
      if !made[dir].Dir? then Outcome(Err(notDir), nodes, true)
      else if p in made && made[p].Dir? then Outcome(Err(OSError), made, true)
      else Outcome(Ok((p, body)), made[p := File(body, now)], true)
  }

  /** The file system, as far as the cache sees it. */
  class Disk {
    var nodes: map<string, Node>

    constructor (initial: map<string, Node>)
      ensures nodes == initial
    {
      nodes := initial;
    }

    /** `os.path.exists(p)` */
    predicate Exists(p: string)
      reads this
    {
      p in nodes
    }

    /** `os.path.isdir(p)` */
    predicate IsDir(p: string)
      reads this
    {
      p in nodes && nodes[p].Dir?
    }

    /** `os.makedirs(p)` for a path that does not exist yet; the empty path is refused. */
    method MakeDirs(p: string, now: int) returns (r: Result<()>)
      requires p !in nodes
      modifies this
      ensures p == "" ==> r == Err(OSError) && nodes == old(nodes)
      ensures p != "" ==> r == Ok(()) && nodes == old(nodes)[p := Dir(now)]
    {
      if p == "" {
        return Err(OSError);
      }
      nodes := nodes[p := Dir(now)];
      return Ok(());
    }

    /** `open(p, 'w').write(content)`: refused when `p` is a directory. */
    method Write(p: string, content: string, now: int) returns (r: Result<()>)
      modifies this
      ensures old(IsDir(p)) ==> r == Err(OSError) && nodes == old(nodes)
      ensures !old(IsDir(p)) ==> r == Ok(()) && nodes == old(nodes)[p := File(content, now)]
    {
      if IsDir(p) {
        return Err(OSError);
      }
      nodes := nodes[p := File(content, now)];
      return Ok(());
    }

    /** `open(p).read()`: refused when `p` is missing or a directory. */
    method Read(p: string) returns (r: Result<string>)
      ensures p in nodes && nodes[p].File? ==> r == Ok(nodes[p].content)
      ensures !(p in nodes && nodes[p].File?) ==> r == Err(OSError)
    {
      if p in nodes && nodes[p].File? {
        return Ok(nodes[p].content);
      }
      return Err(OSError);
    }
  }

  /** The HTTP transport: answers a URL with a body, or fails; every request is logged. */
  class Transport {
    const respond: string -> Option<string>
    var requested: seq<string>

    constructor (respond: string -> Option<string>)
      ensures this.respond == respond && requested == []
    {
      this.respond := respond;
      requested := [];
    }

    method Get(url: string) returns (r: Option<string>)
      modifies this
      ensures r == respond(url)
      ensures requested == old(requested) + [url]
    {
      requested := requested + [url];
      return respond(url);
    }
  }

  /** `a < b` where `b` must be a number (an int or bool); anything else raises. */
  function LessThan(a: int, b: Py): (r: Result<bool>)
    ensures IsInt(b) <==> r.Ok?
    ensures r.Ok? ==> (r.value <==> a < IntOf(b))
  {
    if IsInt(b) then Ok(a < IntOf(b)) else Err(TypeError)
  }

  /** `v == 0`: only an int or bool can equal zero. */
  predicate EqualsZero(v: Py)
  {
    IsInt(v) && IntOf(v) == 0
  }
}
