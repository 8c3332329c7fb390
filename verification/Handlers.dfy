/** The REST handlers that create and list instances. */
module Handlers {
  import opened ApiTypes
  import opened Calls
  import opened ProofOfWork
  import opened PuzzleStore

  // ----- Names

  function InstanceName(template: string, team: string, player: string): string {
    template + "-" + team + if player != "" then "-" + player else ""
  }

  datatype Request = Request(template: string, team: string, player: string) {
    function Name(): string {
      InstanceName(template, team, player)
    }

    /** What the handler demands of a request. */
    predicate Complete() {
      template != "" && team != ""
    }
  }

  /** The pieces of a string between its hyphens. */
  function Pieces(s: string): (pieces: seq<string>)
    ensures pieces != []
  {
    if s == "" then [""]
    else
      var rest := Pieces(s[1..]);
      if s[0] == '-' then [""] + rest else [[s[0]] + rest[0]] + rest[1..]
  }

  lemma {:induction false} PiecesOfJoined(first: string, rest: string)
    requires '-' !in first
    ensures Pieces(first + "-" + rest) == [first] + Pieces(rest)
  {
    var s := first + "-" + rest;
    if first == "" {
      assert s[1..] == rest;
    } else {
      PiecesOfJoined(first[1..], rest);
      assert s[1..] == first[1..] + "-" + rest;
      assert [first[0]] + first[1..] == first;
    }
  }

  lemma {:induction false} PiecesOfOne(s: string)
    requires '-' !in s
    ensures Pieces(s) == [s]
  {
    if s != "" {
      PiecesOfOne(s[1..]);
      assert [s[0]] + s[1..] == s;
    }
  }

  /** From a name without hyphens in its parts these can be read off, in their order. */
  lemma NameReadsBack(template: string, team: string, player: string)
    requires '-' !in template && '-' !in team && '-' !in player
    ensures Pieces(InstanceName(template, team, player))
            == if player == "" then [template, team] else [template, team, player]
  {
    PiecesOfOne(team);
    PiecesOfOne(player);
    PiecesOfJoined(template, team);
    if player != "" {
      PiecesOfJoined(team, player);
      PiecesOfJoined(template, team + "-" + player);
      assert InstanceName(template, team, player) == template + "-" + (team + "-" + player);
    } else {
      assert InstanceName(template, team, player) == template + "-" + team;
    }
  }

  /** A player's instance is named after the team's. */
  lemma PlayerExtendsTeam(template: string, team: string, player: string)
    ensures InstanceName(template, team, "") <= InstanceName(template, team, player)
    ensures player != "" ==> InstanceName(template, team, player) == InstanceName(template, team, "") + "-" + player
  {}

  ghost predicate Clash(r: Request, other: Request) {
    other.Complete() && other != r && other.Name() == r.Name()
  }

  /** A hyphen inside the template or the team, or any player at all, lets the name be read in a second way. */
  predicate ReadsTwoWays(r: Request)
    requires r.Complete()
  {
    r.player != "" || '-' in r.template[1..] || '-' in r.team[..|r.team| - 1]
  }

  lemma SecondReading(r: Request) returns (other: Request)
    requires r.Complete() && ReadsTwoWays(r)
    ensures Clash(r, other)
  {
    var t, m := r.template, r.team;
    if r.player != "" {
      other := Request(t, m + "-" + r.player, "");
      assert other.Name() == t + "-" + (m + "-" + r.player) == r.Name();
    } else if '-' in t[1..] {
      var j :| 1 <= j < |t| && t[j] == '-';
      other := Request(t[..j], t[j + 1..] + "-" + m, "");
      assert t == t[..j] + "-" + t[j + 1..];
      assert other.Name() == t[..j] + "-" + (t[j + 1..] + "-" + m) == (t[..j] + "-" + t[j + 1..]) + "-" + m == r.Name();
    } else {
      var j :| 0 <= j < |m| - 1 && m[j] == '-';
      other := Request(t + "-" + m[..j], m[j + 1..], "");
      assert m == m[..j] + "-" + m[j + 1..];
      assert other.Name() == (t + "-" + m[..j]) + "-" + m[j + 1..] == t + "-" + (m[..j] + "-" + m[j + 1..]) == r.Name();
    }
  }

  function PlayerSuffix(player: string): string {
    if player != "" then "-" + player else ""
  }

  lemma ClashReadsTwoWays(r: Request, other: Request)
    requires r.Complete() && Clash(r, other)
    ensures ReadsTwoWays(r)
  {
    if r.player == "" {
      var name, t, m := r.Name(), r.template, r.team;
      var rest := other.team + PlayerSuffix(other.player);
      assert name == t + "-" + m && name == other.template + "-" + rest;
      var i := |other.template|;
      assert name[i] == '-' && 0 < i < |name| - 1;
      if i < |t| {
        assert t[1..][i - 1] == '-';
      } else if i > |t| {
        assert m[..|m| - 1][i - |t| - 1] == '-';
      } else {
        assert other.template == name[..i] == t;
        assert rest == name[i + 1..] == m;
        assert other.player != "";
        assert rest[|other.team|] == '-';
        assert m[..|m| - 1][|other.team|] == '-';
      }
    }
  }

  /** A request's instance name belongs to another request as well exactly when it can be read in two ways. */
  lemma NameIsSharedExactly(r: Request)
    requires r.Complete()
    ensures (exists other :: Clash(r, other)) <==> ReadsTwoWays(r)
  {
    if ReadsTwoWays(r) {
      var other := SecondReading(r);
    }
    if other :| Clash(r, other) {
      ClashReadsTwoWays(r, other);
    }
  }

  // ----- Creation

  datatype Body = Body(template: string, team: string, player: string, powChallenge: string, powNonce: nat)

  /** What the handler looks at in a template. */
  datatype Gate = Gate(ready: bool, powEnabled: bool)

  datatype Code = Created | BadRequest | TemplateUnknown | Conflict | PreconditionRequired | InternalError

  class Api {
    const puzzles: Server
    var instances: map<string, Spec>

    constructor (hash: Hash, ghost clock: int)
      ensures fresh(puzzles) && puzzles.Valid() && puzzles.hash == hash && puzzles.now.clock == clock
      ensures puzzles.now.creations == [] && puzzles.puzzles == map[] && instances == map[]
    {
      puzzles := new Server(hash, clock);
      instances := map[];
    }

    /**
     A puzzle is spent exactly when the request reaches the gate, whether or not it passes. An instance is created
     exactly when the request is complete, its template is ready, its proof of work, if one is asked for, is right, its
     name is free, and the server does not refuse; no other instance is touched. The caller is told so unless the
     server's reply is lost. The puzzle server's run records the creation exactly if it went through the gate.
     */
    method HandleCreateInstance(body: Body, template: Fetch<Gate>, at: int, fault: Fault) returns (code: Code)
      requires puzzles.Valid() && puzzles.now.clock <= at
      modifies this`instances, puzzles
      ensures puzzles.Valid() && old(puzzles.run) <= puzzles.run
      ensures puzzles.now.clock <= at
      ensures var stored := old(puzzles.puzzles);
              var named := body.template != "" && body.team != "";
              var ready := named && template.Got? && template.value.ready;
              var gated := ready && template.value.powEnabled;
              var solved := body.powChallenge in stored && at <= stored[body.powChallenge].expiresAt
                            && VerifyPoW(puzzles.hash, body.powChallenge, body.powNonce,
                                         stored[body.powChallenge].difficulty);
              var name := body.template + "-" + body.team + if body.player == "" then "" else "-" + body.player;
              var reaches := ready && (gated ==> solved);
              var creates := reaches && fault != Refused && name !in old(instances);
              && puzzles.puzzles == (if gated then stored - {body.powChallenge} else stored)
              && instances == (if creates then old(instances)[name := Spec(body.template, body.team, body.player, "")]
                               else old(instances))
              && |puzzles.now.creations| == |old(puzzles.now.creations)| + (if creates && gated then 1 else 0)
              && (code == BadRequest <==> !named)
              && (code == TemplateUnknown <==> named && template == Absent)
              && (code == PreconditionRequired <==> gated && !solved)
              && (code == Created <==> creates && fault == NoFault)
              && (code == Conflict <==>
                    (named && template.Got? && !ready) || (reaches && fault == NoFault && name in old(instances)))
    {
      if body.template == "" || body.team == "" {
        return BadRequest;
      }
      match template {
        case Absent => return TemplateUnknown;
        case Unreadable => return InternalError;
        case Got(gate) =>
          if !gate.ready {
            return Conflict;
          }
          ghost var i: nat := 0;
          if gate.powEnabled {
            var ok: bool;
            ok, i := puzzles.ConsumePoW(body.powChallenge, body.powNonce, at);
            if !ok {
              return PreconditionRequired;
            }
          }
          var name := InstanceName(body.template, body.team, body.player);
          ghost var taken := name in instances;
          code := Create(name, Spec(body.template, body.team, body.player, ""), fault);
          if gate.powEnabled && !taken && fault != Refused {
            puzzles.RecordCreation(i);
          }
      }
    }

    /** The API server's answer to a create, as the handler passes it on. */
    method Create(name: string, spec: Spec, fault: Fault) returns (code: Code)
      modifies this`instances
      ensures instances == if fault != Refused && name !in old(instances) then old(instances)[name := spec]
                           else old(instances)
      ensures code == if fault != NoFault then InternalError else if name in old(instances) then Conflict else Created
    {
      code := if fault != NoFault then InternalError else if name in instances then Conflict else Created;
      if fault != Refused && name !in instances {
        instances := instances[name := spec];
      }
    }
  }

  // ----- Listing

  datatype Item = Item(name: string, phase: string)

  /** The items in the given phase, in their order. */
  function InPhase(items: seq<Item>, phase: string): seq<Item> {
    if items == [] then []
    else
      var last := items[|items| - 1];
      InPhase(items[..|items| - 1], phase) + if last.phase == phase then [last] else []
  }

  /** handleListInstances: the filtered slice shares the array it is filtered from. */
  method FilterInPlace(items: array<Item>, phase: string) returns (n: nat)
    modifies items
    ensures n <= items.Length
    ensures items[..n] == InPhase(old(items[..]), phase)
    ensures items[n..] == old(items[n..])
  {
    n := 0;
    ghost var was := items[..];
    for i := 0 to items.Length
      invariant n <= i
      invariant items[..n] == InPhase(was[..i], phase)
      invariant forall j :: n <= j < items.Length ==> items[j] == was[j]
    {
      var item := items[i];
      assert item == was[i];
      assert was[..i + 1][..i] == was[..i];
      if item.phase == phase {
        items[n] := item;
        n := n + 1;
      }
    }
    assert was[..items.Length] == was;
  }

  /** The filter keeps exactly the items in the phase, and keeps them in order. */
  lemma {:induction false} InPhaseIsFilter(items: seq<Item>, phase: string) returns (kept: seq<nat>)
    ensures |kept| == |InPhase(items, phase)|
    ensures forall k :: 0 <= k < |kept| ==> kept[k] < |items| && items[kept[k]] == InPhase(items, phase)[k]
    ensures forall j, k :: 0 <= j < k < |kept| ==> kept[j] < kept[k]
    ensures forall i: nat :: i < |items| ==> (i in kept <==> items[i].phase == phase)
  {
    if items == [] {
      kept := [];
    } else {
      var n := |items| - 1;
      var earlier := InPhaseIsFilter(items[..n], phase);
      kept := earlier + if items[n].phase == phase then [n] else [];
      assert n !in earlier;
      forall i: nat | i < n ensures i in kept <==> items[i].phase == phase {
        assert items[..n][i] == items[i];
      }
    }
  }
}
