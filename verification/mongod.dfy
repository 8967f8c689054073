/** The replica-set commands of internal/util/mongo.go against one mongod,
    seen as a process that holds at most one configuration document. Whether
    mongod accepts a command is the environment's choice. */
module MongodClient {
  import opened MemberCodec
  import opened Options

  /** bson.ObjectID in its 24-character hex form; never empty. */
  type ObjectId = s: string | |s| == 24 witness "000000000000000000000000"

  const ZERO_ID: ObjectId := "000000000000000000000000"

  /** util.Replset */
  datatype Replset = Replset(id: string, members: seq<Member>, term: int, setId: ObjectId, version: int)

  datatype Command = Initiate(name: string, members: seq<Member>) | Reconfig(config: Replset)

  /** What mongod makes up when a set is initiated. */
  datatype Birth = Birth(setId: ObjectId, term: int)

  /** The stored configuration and every command sent so far. */
  datatype World = World(config: Option<Replset>, sent: seq<Command>)

  /** Done: returned nil. Failed: returned an error. Panicked: the process died. */
  datatype Outcome = Done | Failed | Panicked

  /** mongod refuses to initiate a set twice. */
  function Initiated(w: World, name: string, members: seq<Member>, accept: bool, birth: Birth): World {
    World(if accept && w.config.None? then Some(Replset(name, members, birth.term, birth.setId, 1)) else w.config,
          w.sent + [Initiate(name, members)])
  }

  /** The document goes out with its version raised by one, forced. */
  function Reconfigured(w: World, config: Replset, accept: bool): World {
    var next := config.(version := config.version + 1);
    World(if accept then Some(next) else w.config, w.sent + [Reconfig(next)])
  }

  class Mongod {
    var config: Option<Replset>
    var sent: seq<Command>

    ghost function State(): World
      reads this
    {
      World(config, sent)
    }

    constructor (config: Option<Replset>)
      ensures State() == World(config, [])
    {
      this.config, this.sent := config, [];
    }

    method ReplSetInitiate(rsName: string, members: seq<Member>, accept: bool, birth: Birth) returns (ok: bool)
      modifies this
      ensures ok == (accept && old(config).None?)
      ensures State() == Initiated(old(State()), rsName, members, accept, birth)
    {
      sent := sent + [Initiate(rsName, members)];
      ok := accept && config.None?;
      if ok {
        config := Some(Replset(rsName, members, birth.term, birth.setId, 1));
      }
    }

    method ReplSetReconfig(replSetCfg: Replset, accept: bool) returns (ok: bool)
      modifies this
      ensures ok == accept
      ensures State() == Reconfigured(old(State()), replSetCfg, accept)
    {
      var cmd := replSetCfg.(version := replSetCfg.version + 1);
      sent := sent + [Reconfig(cmd)];
      if accept {
        config := Some(cmd);
      }
      ok := accept;
    }

    /** AddMember re-reads the active configuration and appends to it; reading
        no configuration ends in a nil dereference. */
    method AddMember(members: seq<Member>, readable: bool, accept: bool) returns (outcome: Outcome)
      modifies this
      ensures !readable ==> outcome == Failed && State() == old(State())
      ensures readable && old(config).None? ==> outcome == Panicked && State() == old(State())
      ensures readable && old(config).Some? ==>
                && outcome == (if accept then Done else Failed)
                && State() == Reconfigured(old(State()),
                     old(config).value.(members := old(config).value.members + members), accept)
    {
      if !readable { return Failed; }
      if config.None? { return Panicked; }
      var activeCfg := config.value;
      activeCfg := activeCfg.(members := activeCfg.members + members);
      var ok := ReplSetReconfig(activeCfg, accept);
      return if ok then Done else Failed;
    }
  }
}
