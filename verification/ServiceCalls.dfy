/** The operations of `core/service.py` against the repository object: a read,
    then, any number of other calls later, the guards and the write. The two
    methods refine the two steps of Protocol.dfy, so every theorem about runs is
    a theorem about calls of these methods in any order. */
module ServiceCalls {
  import opened Wrappers
  import opened Models
  import opened Store
  import opened Service
  import opened Legality
  import opened Protocol
  import opened JsonlRepository
  import opened StoreInvariants

  /** The repository is where the gate of the protocol is. */
  ghost predicate Refines(d: Disk, g: Gate) {
    d.maps == g.store && d.log == g.log && d.file == Text(g.log)
  }

  /** Up to the `await` before the write. */
  method Begin(repo: Repository, req: Request, ghost cfg: Config, ghost g: Gate, ghost client: nat)
    returns (snapshot: Option<Ticket>)
    requires Refines(repo.Whole(), g)
    ensures var next := Next(cfg, g, ReadStep(client, req));
            next.inFlight == g.inFlight[client := InFlight(req, snapshot)] && Refines(repo.Whole(), next)
  {
    hide Text, Read;
    snapshot := Read(repo.Maps(), req);
  }

  /** From there to the answer. */
  method Finish(repo: Repository, cfg: Config, req: Request, snapshot: Option<Ticket>, stamp: Stamp,
                ghost g: Gate, ghost client: nat) returns (r: Result<Decision, Error>)
    requires repo.Valid() && Refines(repo.Whole(), g) && GoodStamp(stamp)
    requires client in g.inFlight && g.inFlight[client] == InFlight(req, snapshot)
    modifies repo
    ensures r == Answer(cfg, g, client, stamp)
    ensures repo.Valid() && Refines(repo.Whole(), Next(cfg, g, WriteStep(client, stamp)))
  {
    hide Decide, Do, Text, WriteText, Lines, Shaped, Coherent, GoodStamp;
    var d :- Decide(cfg, req, snapshot, stamp);
    match d
    case Perform(w) =>
      DecisionIsLegal(cfg, req, snapshot, stamp);
      LegalIsCoherent(cfg, snapshot, w);
      WriteTextIsLines(g.log, w);
      var carried := repo.Carry(w);
      if carried.Failure? { return Failure(carried.error); }
      return Success(d);
    case _ => return Success(d);
  }

  /** A process that stops and starts again on its own file is where it was. */
  method Reopen(repo: Repository, ghost cfg: Config, ghost g: Gate) returns (again: Repository)
    requires cfg.Valid() && Inv(cfg, g) && Refines(repo.Whole(), g)
    ensures fresh(again) && again.Valid() && Refines(again.Whole(), Next(cfg, g, Restart))
    ensures again.Whole() == repo.Whole()
  {
    hide Boot, Text, Sound, LogOk, Shaped;
    BootIsIdentity(cfg, g);
    var started := Repository.Open(repo.file, repo.log);
    again := started.value;
  }
}
