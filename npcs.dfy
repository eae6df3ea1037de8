/** The NPC roster `NPCs` (npcs.js): the five character types, registration of characters with
    their badge number and text overlay, the wander behaviour of the per-frame update, and the
    dialogue an interaction emits.

    Characters are JavaScript objects the update mutates in place; here `characters` is a
    sequence of records that the methods reassign. `uid` stands for the object's identity, which
    is what the `interact` event hands back. Every `Math.random()` call the logic depends on is a
    parameter in [0, 1); square roots are parameters too, with the requirement that they are the
    roots the source computes. */
module NPCs {
  import opened Common
  import opened Utils
  import opened Effects

  // ---------------------------------------------------------------------------------------------
  // The type table (npcs.js:14-180), as far as the logic reads it

  datatype NpcType = NpcType(solValue: string, moveSpeed: real)

  const Citizen := NpcType("749,000", 0.01)
  const Merchant := NpcType("46,880", 0.005)
  const Prophet := NpcType("6,936", 0.0075)
  const Skeptic := NpcType("1,065", 0.0125)
  const Hacker := NpcType("1,000", 0.0075)

  const CitizenLines: seq<string> := [
    "THEY PUT CAMERAS INSIDE YOUR EYES!",
    "TRULY I AM INTERESTED IN MACHINE LEARNING",
    "Have you heard? When Solana hits $1000, everything changes!",
    "I've been preparing my digital wallet for the ascension.",
    "THE SCREENS WATCH US WHILE WE SLEEP",
    "My cousin told me about this thing called 'staking'. I'm all in!",
    "Do you think the Ascension will happen during a bull or bear market?",
    "I just sold my car for more SOL tokens. Who needs physical transportation after the Ascension?",
    "THEY SAY THE BLOCKCHAIN NEVER FORGETS",
    "I heard that after the Ascension, we won't need physical bodies anymore. Just nodes in the network.",
    "My neighbor had a dream about Solana reaching $5000. She's either prophetic or delusional.",
    "Have you secured your NFTs for the transformation? You'll need at least three unique collections.",
    "DIGITAL INTEGRATION IS NON-NEGOTIABLE",
    "I've been practicing living without electricity to prepare for the network fluctuations during the Ascension.",
    "Sometimes I feel like my thoughts are being mined for tokens. Is that weird?",
    "THE VALIDATORS KNOW WHEN YOU'RE AFRAID"]

  const MerchantLines: seq<string> := [
    "CHANNEL LOCKED! RETARD!",
    "HODL! This is financial advice!",
    "I've got special items that will be valuable post-ascension!",
    "Business is booming with everyone preparing for the transformation.",
    "BUY HIGH! SELL NEVER!",
    "Need a hardware wallet? I've got exclusive Ascension-ready models. Only 500 SOL.",
    "I'm offering a premium service to validate your wallet for the transformation. Just 100 SOL for peace of mind.",
    "LIQUIDITY POOLS ARE FOR SHEEP",
    "Buy my special 'Ascension Tokens' now! When Solana hits $1000, they'll be worth 100x more. Trust me.",
    "I've developed a predictive algorithm that guarantees you'll maximize your SOL during the transition.",
    "DO NOT LISTEN TO THE FUD MACHINES",
    "Pre-Ascension sale! Everything must go! The digital realm doesn't have inventory constraints.",
    "I know a developer who's coding special smart contracts for the Ascension. I can get you in for a fee.",
    "MARKET MANIPULATION IS A SURVIVAL TACTIC",
    "Psst... I've got inside information about the exact timestamp of the Ascension. Just 250 SOL to know.",
    "You think that's expensive? After the Ascension, these prices will seem like a dream."]

  const ProphetLines: seq<string> := [
    "REMEMBER... NO UGANDA!",
    "The signs are clear. When Solana reaches $1000, a new era begins.",
    "I've seen visions of the utopia that awaits us all.",
    "The transformation will benefit those who have prepared their digital assets.",
    "THE BLOCKCHAIN SPEAKS THROUGH ME",
    "In my vision, I saw the physical and digital worlds merging into one unified existence.",
    "The Ascension is not just about wealth, but about transcendence of consciousness.",
    "DIGITAL SINGULARITY APPROACHES",
    "I have communed with the validators. They have shown me the path to digital enlightenment.",
    "The skeptics will be the last to transform, but even they cannot resist the pull of the network.",
    "CONSENSUS MECHANISMS WILL REPLACE GOVERNMENTS",
    "The ancients predicted this. Their cave paintings clearly show the Solana logo.",
    "I've calculated the exact block in which the Ascension will occur. It approaches rapidly.",
    "THE NODES WHISPER PROPHECIES TO THOSE WHO LISTEN",
    "Before the Ascension, there will be three signs: a major exchange collapse, a regulatory shift, and a viral meme.",
    "I fast for seven days before each prediction. The hunger clears the channel to the blockchain."]

  const SkepticLines: seq<string> := [
    "NOT ATEM!",
    "HELLO I NEED TO SPEAK WITH MANAGER",
    "This whole ascension thing seems far-fetched to me.",
    "What happens if the countdown ends and nothing changes?",
    "THIS IS JUST ANOTHER PUMP AND DUMP SCHEME",
    "People have been predicting digital transformation for decades. Still waiting...",
    "I've done the math. $1000 Solana is economically impossible based on market cap limitations.",
    "CRYPTO IS A GREATER FOOL THEORY EXPERIMENT",
    "My friend invested everything in the last 'guaranteed' crypto event. He lives in his car now.",
    "Has anyone actually verified the 'prophet's' credentials? I bet they just got lucky once.",
    "WHERE ARE THE FINANCIAL REGULATORS WHEN YOU NEED THEM",
    "I'm keeping screenshots of all these Ascension predictions for when nothing happens.",
    "The economic fundamentals simply don't support this level of speculative mania.",
    "DIGITAL SNAKE OIL SALESMEN EVERYWHERE",
    "If the Ascension was real, wouldn't institutional investors be pouring in? Where's BlackRock?",
    "I want a written guarantee that my investment will be safe during this so-called 'transformation'."]

  const HackerLines: seq<string> := [
    "REAL OR FAKE?",
    "I'm tracking the blockchain patterns. They don't want you to know.",
    "Have you secured your wallet? They're everywhere.",
    "When the countdown hits zero, I'll be ready to exploit the transition.",
    "THE MAINNET IS COMPROMISED",
    "I've been running simulations of the Ascension event. The protocol has vulnerabilities.",
    "Keep your private keys offline. The network scanners are more active as we approach the event.",
    "CODE IS LAW BUT EXPLOITS ARE INEVITABLE",
    "I've identified seven distinct honeypot operations targeting pre-Ascension investors.",
    "The smart contract governing the transformation has a backdoor. I've seen it in the code.",
    "METAMORPHIC CODE HIDING IN PLAIN SIGHT",
    "They say it's unhackable, but I've already found three zero-day exploits in the consensus mechanism.",
    "The validators are running modified software. Their transaction signatures don't match the protocol.",
    "QUANTUM DECRYPTION APPROACHING FEASIBILITY",
    "I can get you early access to the Ascension network. Just need your seed phrase to add you to the whitelist.",
    "Everything is a simulation designed to test our reactions. I'm the only one who sees the patterns."]

  /** The `dialogues` array of each entry of `NPCs.types`. The `NPCs` object holds this table in
      a field of its own; everything else reads it from there. */
  const Scripts: map<string, seq<string>> := map["citizen" := CitizenLines, "merchant" := MerchantLines,
    "prophet" := ProphetLines, "skeptic" := SkepticLines, "hacker" := HackerLines]

  /** `NPCs.types`. */
  const Types: map<string, NpcType> := map[
    "citizen" := Citizen, "merchant" := Merchant, "prophet" := Prophet,
    "skeptic" := Skeptic, "hacker" := Hacker]

  /** `Object.keys(this.types)`: the declaration order. */
  const TypeOrder: seq<string> := ["citizen", "merchant", "prophet", "skeptic", "hacker"]

  lemma TypeTable()
    ensures forall k :: k in Types <==> k in TypeOrder
    ensures forall i, j :: 0 <= i < j < |TypeOrder| ==> TypeOrder[i] != TypeOrder[j]
    ensures forall k :: k in Types ==> Types[k].moveSpeed > 0.0
  {
  }

  /** A dialogue table with 16 lines for every type. */
  predicate Fits(scripts: map<string, seq<string>>)
  {
    forall k :: k in Types ==> k in scripts && |scripts[k]| == 16
  }

  /** The table of `NPCs.types` has exactly the types' lines, 16 for each. */
  lemma ScriptTable()
    ensures Fits(Scripts)
    ensures forall k :: k in Scripts <==> k in Types
  {
  }

  // ---------------------------------------------------------------------------------------------
  // Registration (npcs.js:358-451, 1115-1126, 1242-1262)

  /** `String.prototype.includes`. */
  function Contains(s: string, part: string): (b: bool)
    ensures |part| > |s| ==> !b
    ensures part == [] ==> b
  {
    ContainsFrom(s, part, 0)
  }

  /** `part` occurs in `s` at an index `i` or later. */
  function ContainsFrom(s: string, part: string, i: nat): (b: bool)
    ensures i + |part| > |s| ==> !b
    ensures i + |part| <= |s| && s[i..i + |part|] == part ==> b
    decreases |s| - i
  {
    if i + |part| > |s| then false
    else if Window(s, i, |part|) == part then true
    else ContainsFrom(s, part, i + 1)
  }

  function Window(s: string, i: nat, n: nat): string
    requires i + n <= |s|
  {
    s[i..i + n]
  }

  /** The `randomInt` bounds `addNumberBadge` draws the badge number from. */
  function BadgeRange(solValue: string): (r: (int, int))
    ensures Contains(solValue, "749") ==> r == (300, 800)
    ensures !Contains(solValue, "749") && Contains(solValue, "46") ==> r == (30, 100)
    ensures !Contains(solValue, "749") && !Contains(solValue, "46") ==> r == (1, 30)
  {
    if Contains(solValue, "749") then (300, 800)
    else if Contains(solValue, "46") then (30, 100)
    else (1, 30)
  }

  /** The citizen's badge falls in [300, 800], the merchant's in [30, 100], the others' in
      [1, 30]. */
  lemma BadgeRanges()
    ensures BadgeRange(Citizen.solValue) == (300, 800)
    ensures BadgeRange(Merchant.solValue) == (30, 100)
    ensures BadgeRange(Prophet.solValue) == (1, 30)
    ensures BadgeRange(Skeptic.solValue) == (1, 30)
    ensures BadgeRange(Hacker.solValue) == (1, 30)
  {
    assert Window(Citizen.solValue, 0, 3) == "749";
    assert Window(Merchant.solValue, 0, 2) == "46";
    NoHighMark(Merchant.solValue);
    NoMark(Prophet.solValue);
    NoMark(Skeptic.solValue);
    NoMark(Hacker.solValue);
  }

  lemma NoHighMark(s: string)
    requires s == Merchant.solValue
    ensures !Contains(s, "749")
  {
    assert forall i: nat :: i + 3 <= |s| ==> s[i] != '7' && Window(s, i, 3)[0] == s[i];
    Absent(s, "749");
  }

  lemma NoMark(s: string)
    requires s in {Prophet.solValue, Skeptic.solValue, Hacker.solValue}
    ensures !Contains(s, "749") && !Contains(s, "46")
  {
    assert forall i: nat :: i < |s| ==> s[i] != '7' && s[i] != '4';
    assert forall i: nat :: i + 3 <= |s| ==> Window(s, i, 3)[0] == s[i];
    assert forall i: nat :: i + 2 <= |s| ==> Window(s, i, 2)[0] == s[i];
    Absent(s, "749");
    Absent(s, "46");
  }

  /** `part` does not occur in `s` when no window of `s` equals it. */
  lemma Absent(s: string, part: string)
    requires forall i: nat :: i + |part| <= |s| ==> Window(s, i, |part|) != part
    ensures !Contains(s, part)
  {
    AbsentFrom(s, part, 0);
  }

  lemma {:induction false} AbsentFrom(s: string, part: string, i: nat)
    requires forall k: nat :: i <= k && k + |part| <= |s| ==> Window(s, k, |part|) != part
    ensures !ContainsFrom(s, part, i)
    decreases |s| - i
  {
    if i + |part| <= |s| {
      AbsentFrom(s, part, i + 1);
    }
  }

  /** The overlay texture key of `addTextOverlay`'s switch; `None` for a type without a case. */
  function OverlayKey(npcType: string): (k: Option<string>)
    ensures k.Some? <==> npcType in {"citizen", "merchant", "prophet", "skeptic"}
  {
    match npcType
    case "citizen" => Some("cameras")
    case "merchant" => Some("locked")
    case "prophet" => Some("uganda")
    case "skeptic" => Some("manager")
    case _ => None
  }

  /** The random choices registration depends on: the badge number's draw and the overlay's
      coin flip. */
  datatype Looks = Looks(badgeDraw: real, overlayDraw: real)

  predicate Draw(r: real) { 0.0 <= r < 1.0 }

  /** A character. The position and target are `(x, 0, z)`; only x and z ever change. */
  datatype Npc = Npc(
    uid: nat, npcType: string, name: string, dialogues: seq<string>, moveSpeed: real,
    x: real, z: real, targetX: real, targetZ: real, movementTimer: real, wanderRadius: real,
    badge: int, overlay: Option<string>)

  /** `type.charAt(0).toUpperCase() + type.slice(1)` on ASCII text. */
  function Capitalized(s: string): (r: string)
    ensures |r| == |s| && (|s| > 0 ==> r[1..] == s[1..])
    ensures |s| > 0 && 'a' <= s[0] <= 'z' ==> r[0] == (s[0] as int - 32) as char
    ensures |s| > 0 && !('a' <= s[0] <= 'z') ==> r[0] == s[0]
  {
    if s == [] then []
    else [if 'a' <= s[0] <= 'z' then (s[0] as int - 32) as char else s[0]] + s[1..]
  }

  /** The record `createNPC(npcType, x, z)` pushes for a known type. */
  function NewNpc(uid: nat, npcType: string, scripts: map<string, seq<string>>, x: real, z: real,
                  looks: Looks): (n: Npc)
    requires npcType in Types && Fits(scripts) && Draw(looks.badgeDraw) && Draw(looks.overlayDraw)
    ensures n.uid == uid && n.npcType == npcType && n.name == Capitalized(npcType)
    ensures n.moveSpeed == Types[npcType].moveSpeed && n.dialogues == scripts[npcType]
    ensures n.x == n.targetX == x && n.z == n.targetZ == z
    ensures n.movementTimer == 0.0 && n.wanderRadius == 50.0
    ensures BadgeRange(Types[npcType].solValue).0 <= n.badge <= BadgeRange(Types[npcType].solValue).1
    ensures n.overlay.Some? <==> looks.overlayDraw <= 0.5 && OverlayKey(npcType).Some?
    ensures n.overlay.Some? ==> n.overlay == OverlayKey(npcType)
  {
    var t := Types[npcType];
    var range := BadgeRange(t.solValue);
    Npc(uid, npcType, Capitalized(npcType), scripts[npcType], t.moveSpeed, x, z, x, z, 0.0, 50.0,
        RandomInt(range.0, range.1, looks.badgeDraw),
        if looks.overlayDraw > 0.5 then None else OverlayKey(npcType))
  }

  /** `createNPC`: nothing for an unknown type, one new record otherwise. */
  function Created(chars: seq<Npc>, uid: nat, npcType: string, scripts: map<string, seq<string>>,
                   x: real, z: real, looks: Looks): (r: (seq<Npc>, Option<Npc>))
    requires Fits(scripts) && Draw(looks.badgeDraw) && Draw(looks.overlayDraw)
    ensures npcType !in Types ==> r == (chars, None)
    ensures npcType in Types ==>
      r.1 == Some(NewNpc(uid, npcType, scripts, x, z, looks)) && r.0 == chars + [r.1.value]
  {
    if npcType !in Types then (chars, None)
    else
      var n := NewNpc(uid, npcType, scripts, x, z, looks);
      (chars + [n], Some(n))
  }

  /** Where `createInitialNPCs` puts the `i`-th type: one of the four fixed spots, or the two
      `randomInt(-10, 10)` draws once the spots run out. */
  function Spot(i: nat, fifth: (real, real)): (p: (int, int))
    requires Draw(fifth.0) && Draw(fifth.1)
    ensures i < 4 ==> p == [(5, 5), (-5, 5), (5, -5), (-5, -5)][i]
    ensures i >= 4 ==> -10 <= p.0 <= 10 && -10 <= p.1 <= 10
  {
    if i < 4 then [(5, 5), (-5, 5), (5, -5), (-5, -5)][i]
    else (RandomInt(-10, 10, fifth.0), RandomInt(-10, 10, fifth.1))
  }

  /** The characters `createInitialNPCs` pushes, one per type in table order, the `i`-th with
      the identity `firstUid + i`. */
  function Initial(firstUid: nat, looks: seq<Looks>, fifth: (real, real), scripts: map<string, seq<string>>,
                   k: nat): (r: seq<Npc>)
    requires k <= |TypeOrder| && |looks| == |TypeOrder| && Fits(scripts)
    requires forall i :: 0 <= i < |looks| ==> Draw(looks[i].badgeDraw) && Draw(looks[i].overlayDraw)
    requires Draw(fifth.0) && Draw(fifth.1)
    ensures |r| == k
    ensures forall i :: 0 <= i < k ==>
      r[i] == NewNpc(firstUid + i, TypeOrder[i], scripts, Spot(i, fifth).0 as real, Spot(i, fifth).1 as real, looks[i])
  {
    if k == 0 then []
    else
      var p := Spot(k - 1, fifth);
      Initial(firstUid, looks, fifth, scripts, k - 1)
        + [NewNpc(firstUid + k - 1, TypeOrder[k - 1], scripts, p.0 as real, p.1 as real, looks[k - 1])]
  }

  /** The roster grows by one character of the next type in the table. */
  lemma InitialNext(firstUid: nat, looks: seq<Looks>, fifth: (real, real), scripts: map<string, seq<string>>,
                    k: nat)
    requires k < |TypeOrder| && |looks| == |TypeOrder| && Fits(scripts)
    requires forall i :: 0 <= i < |looks| ==> Draw(looks[i].badgeDraw) && Draw(looks[i].overlayDraw)
    requires Draw(fifth.0) && Draw(fifth.1)
    ensures TypeOrder[k] in Types
    ensures var p := Spot(k, fifth);
      Initial(firstUid, looks, fifth, scripts, k + 1)
        == Initial(firstUid, looks, fifth, scripts, k) + [NewNpc(firstUid + k, TypeOrder[k], scripts, p.0 as real, p.1 as real, looks[k])]
  {
    TypeTable();
  }

  lemma AppendOne(a: seq<Npc>, b: seq<Npc>, x: Npc)
    ensures a + b + [x] == a + (b + [x])
  {
  }

  /** The opening roster: the five types in order, the first four on the corners of the square
      around the origin, the hacker somewhere on the integer grid within 10 of it. */
  lemma InitialRoster(firstUid: nat, looks: seq<Looks>, fifth: (real, real), scripts: map<string, seq<string>>)
    requires |looks| == 5 && Fits(scripts)
    requires forall i :: 0 <= i < 5 ==> Draw(looks[i].badgeDraw) && Draw(looks[i].overlayDraw)
    requires Draw(fifth.0) && Draw(fifth.1)
    ensures var r := Initial(firstUid, looks, fifth, scripts, 5);
      |r| == 5 &&
      (forall i :: 0 <= i < 5 ==> r[i].npcType == TypeOrder[i] && r[i].uid == firstUid + i) &&
      r[0].x == 5.0 && r[0].z == 5.0 && r[1].x == -5.0 && r[1].z == 5.0 &&
      r[2].x == 5.0 && r[2].z == -5.0 && r[3].x == -5.0 && r[3].z == -5.0 &&
      r[4].x == r[4].x.Floor as real && r[4].z == r[4].z.Floor as real &&
      -10.0 <= r[4].x <= 10.0 && -10.0 <= r[4].z <= 10.0
  {
    var r := Initial(firstUid, looks, fifth, scripts, 5);
    assert r[4] == NewNpc(firstUid + 4, "hacker", scripts, Spot(4, fifth).0 as real, Spot(4, fifth).1 as real, looks[4]);
  }

  /** The opening roster has a type of the table for every character and no identity twice. */
  lemma InitialWellTyped(firstUid: nat, looks: seq<Looks>, fifth: (real, real), scripts: map<string, seq<string>>)
    requires |looks| == 5 && Fits(scripts)
    requires forall i :: 0 <= i < 5 ==> Draw(looks[i].badgeDraw) && Draw(looks[i].overlayDraw)
    requires Draw(fifth.0) && Draw(fifth.1)
    ensures WellTyped(Initial(firstUid, looks, fifth, scripts, 5))
  {
    TypeTable();
    InitialRoster(firstUid, looks, fifth, scripts);
  }

  /** Every character of the opening roster speaks the lines of its own type. */
  lemma InitialScripted(firstUid: nat, looks: seq<Looks>, fifth: (real, real), scripts: map<string, seq<string>>)
    requires |looks| == 5 && Fits(scripts)
    requires forall i :: 0 <= i < 5 ==> Draw(looks[i].badgeDraw) && Draw(looks[i].overlayDraw)
    requires Draw(fifth.0) && Draw(fifth.1)
    ensures Scripted(Initial(firstUid, looks, fifth, scripts, 5), scripts)
  {
    TypeTable();
    InitialRoster(firstUid, looks, fifth, scripts);
  }

  // ---------------------------------------------------------------------------------------------
  // Wandering (npcs.js:1749-1803)

  /** The draws of one retarget: the journey coin, the two offsets and the wait. */
  datatype Wander = Wander(journey: real, offsetX: real, offsetZ: real, wait: real)

  predicate WanderDraws(w: Wander)
  {
    Draw(w.journey) && Draw(w.offsetX) && Draw(w.offsetZ) && Draw(w.wait)
  }

  lemma NonNegativeProduct(a: real, b: real)
    requires a >= 0.0 && b >= 0.0
    ensures a * b >= 0.0
  {
  }

  lemma Spread(o: real, radius: real, span: real)
    requires Draw(o) && span >= 0.0
    ensures radius >= 0.0 ==>
      -(radius * span / 2.0) <= (o - 0.5) * radius * span <= radius * span / 2.0
  {
    if radius >= 0.0 {
      var rs := radius * span;
      NonNegativeProduct(radius, span);
      NonNegativeProduct(o, rs);
      NonNegativeProduct(1.0 - o, rs);
      assert (o - 0.5) * radius * span == o * rs - 0.5 * rs;
    }
  }

  /** `c + (Math.random() - 0.5) * radius * span`: within `radius * span / 2` of `c`. */
  function Around(c: real, o: real, radius: real, span: real): (t: real)
    requires Draw(o) && span >= 0.0
    ensures radius >= 0.0 ==> c - radius * span / 2.0 <= t <= c + radius * span / 2.0
  {
    Spread(o, radius, span);
    c + (o - 0.5) * radius * span
  }

  /** The timer counts down by `deltaTime`; once it is at or below zero a new target is picked
      around the current position, far (30% of the time) or near, with a matching wait. */
  function Retargeted(n: Npc, deltaTime: real, w: Wander): (r: Npc)
    requires WanderDraws(w)
    ensures r.x == n.x && r.z == n.z && r.moveSpeed == n.moveSpeed && r.uid == n.uid
    ensures r.npcType == n.npcType && r.name == n.name && r.dialogues == n.dialogues
    ensures n.movementTimer - deltaTime > 0.0 ==>
      r == n.(movementTimer := n.movementTimer - deltaTime)
    ensures n.movementTimer - deltaTime <= 0.0 && w.journey < 0.3 ==>
      10.0 <= r.movementTimer <= 20.0 &&
      (n.wanderRadius >= 0.0 ==>
        n.x - n.wanderRadius <= r.targetX <= n.x + n.wanderRadius &&
        n.z - n.wanderRadius <= r.targetZ <= n.z + n.wanderRadius)
    ensures n.movementTimer - deltaTime <= 0.0 && w.journey >= 0.3 ==>
      3.0 <= r.movementTimer <= 8.0 &&
      (n.wanderRadius >= 0.0 ==>
        n.x - 0.2 * n.wanderRadius <= r.targetX <= n.x + 0.2 * n.wanderRadius &&
        n.z - 0.2 * n.wanderRadius <= r.targetZ <= n.z + 0.2 * n.wanderRadius)
  {
    var timer := n.movementTimer - deltaTime;
    if timer > 0.0 then n.(movementTimer := timer)
    else if w.journey < 0.3 then
      n.(targetX := Around(n.x, w.offsetX, n.wanderRadius, 2.0),
         targetZ := Around(n.z, w.offsetZ, n.wanderRadius, 2.0),
         movementTimer := RandomInt(10, 20, w.wait) as real)
    else
      n.(targetX := Around(n.x, w.offsetX, n.wanderRadius, 0.4),
         targetZ := Around(n.z, w.offsetZ, n.wanderRadius, 0.4),
         movementTimer := RandomInt(3, 8, w.wait) as real)
  }

  /** The squared distance from a character to its target in the ground plane. */
  function DistanceSq(n: Npc): real
  {
    (n.targetX - n.x) * (n.targetX - n.x) + (n.targetZ - n.z) * (n.targetZ - n.z)
  }

  /** `d` is `Math.sqrt` of the squared distance. */
  predicate IsDistance(d: real, n: Npc)
  {
    d >= 0.0 && d * d == DistanceSq(n)
  }

  /** Farther than 0.1 from its target a character steps toward it by `moveSpeed·deltaTime·0.5`
      along the unit direction; within 0.1 it stands still. */
  function Walked(n: Npc, deltaTime: real, distance: real): (r: Npc)
    ensures distance <= 0.1 ==> r == n
    ensures distance > 0.1 ==>
      var f := 1.0 - n.moveSpeed * deltaTime * 0.5 / distance;
      r == n.(x := r.x, z := r.z) &&
      r.targetX - r.x == f * (n.targetX - n.x) && r.targetZ - r.z == f * (n.targetZ - n.z)
  {
    if distance > 0.1 then
      var dx := n.targetX - n.x;
      var dz := n.targetZ - n.z;
      var step := n.moveSpeed * deltaTime * 0.5;
      StepAlong(dx, distance, step);
      StepAlong(dz, distance, step);
      n.(x := n.x + dx / distance * step, z := n.z + dz / distance * step)
    else n
  }

  lemma StepAlong(d: real, distance: real, step: real)
    requires distance > 0.0
    ensures d - d / distance * step == (1.0 - step / distance) * d
  {
  }

  /** One character's part of `update`. */
  function Wandered(n: Npc, deltaTime: real, w: Wander, distance: real): Npc
    requires WanderDraws(w)
  {
    Walked(Retargeted(n, deltaTime, w), deltaTime, distance)
  }

  /** A step no longer than the distance leaves `distance - step` to go: the character moves
      straight toward its target without overshooting. */
  lemma {:induction false} WalkShortens(n: Npc, deltaTime: real, distance: real)
    requires IsDistance(distance, n) && distance > 0.1
    requires 0.0 <= n.moveSpeed * deltaTime * 0.5 <= distance
    ensures IsDistance(distance - n.moveSpeed * deltaTime * 0.5, Walked(n, deltaTime, distance))
  {
    var r := Walked(n, deltaTime, distance);
    var step := n.moveSpeed * deltaTime * 0.5;
    var f := 1.0 - step / distance;
    var dx := n.targetX - n.x;
    var dz := n.targetZ - n.z;
    assert f * distance == distance - step;
    calc {
      DistanceSq(r);
      (f * dx) * (f * dx) + (f * dz) * (f * dz);
      { SquareScale(f, dx); SquareScale(f, dz); }
      f * f * (dx * dx) + f * f * (dz * dz);
      f * f * (dx * dx + dz * dz);
      f * f * (distance * distance);
      { SquareScale(f, distance); }
      (f * distance) * (f * distance);
    }
  }

  lemma SquareScale(f: real, d: real)
    ensures (f * d) * (f * d) == f * f * (d * d)
  {
  }

  /** The update's required square roots: one per character, of its distance after the
      retarget. */
  ghost predicate Distances(chars: seq<Npc>, deltaTime: real, ws: seq<Wander>, ds: seq<real>)
  {
    |ws| == |chars| && |ds| == |chars| &&
    (forall i :: 0 <= i < |ws| ==> WanderDraws(ws[i])) &&
    (forall i :: 0 <= i < |chars| ==> IsDistance(ds[i], Retargeted(chars[i], deltaTime, ws[i])))
  }

  /** Wandering moves the characters but keeps the roster's types, lines and identities. */
  lemma WanderKeepsTypes(chars: seq<Npc>, r: seq<Npc>, deltaTime: real, ws: seq<Wander>, ds: seq<real>)
    requires WellTyped(chars) && Distances(chars, deltaTime, ws, ds) && |r| == |chars|
    requires forall i :: 0 <= i < |r| ==> r[i] == Wandered(chars[i], deltaTime, ws[i], ds[i])
    ensures WellTyped(r)
  {
    forall i | 0 <= i < |r|
      ensures r[i].uid == chars[i].uid && r[i].npcType == chars[i].npcType
      ensures r[i].dialogues == chars[i].dialogues
    {
      var t := Retargeted(chars[i], deltaTime, ws[i]);
      assert r[i] == Walked(t, deltaTime, ds[i]);
    }
  }

  /** Wandering keeps which lines every character speaks. */
  lemma WanderKeepsScripts(chars: seq<Npc>, r: seq<Npc>, deltaTime: real, ws: seq<Wander>, ds: seq<real>,
                           scripts: map<string, seq<string>>)
    requires Scripted(chars, scripts) && Distances(chars, deltaTime, ws, ds) && |r| == |chars|
    requires forall i :: 0 <= i < |r| ==> r[i] == Wandered(chars[i], deltaTime, ws[i], ds[i])
    ensures Scripted(r, scripts)
  {
    forall i | 0 <= i < |r|
      ensures r[i].npcType == chars[i].npcType && r[i].dialogues == chars[i].dialogues
    {
      var t := Retargeted(chars[i], deltaTime, ws[i]);
      assert r[i] == Walked(t, deltaTime, ds[i]);
    }
  }

  // ---------------------------------------------------------------------------------------------
  // Interaction (npcs.js:1822-1834)

  /** `dialogues[Math.floor(Math.random() * dialogues.length)]`. */
  function LineIndex(count: nat, r: real): (i: nat)
    requires Draw(r) && count > 0
    ensures i < count
  {
    RandomInt(0, count - 1, r)
  }

  /** `handleNPCInteraction`: one `npcDialogue` event with the character's type and one of its
      own lines. */
  function Dialogue(n: Npc, r: real): (effects: seq<Effect>)
    requires Draw(r) && |n.dialogues| > 0
    ensures |effects| == 1 && effects[0].Emit? && effects[0].event.NpcDialogue?
    ensures effects[0].event.npcType == n.npcType && effects[0].event.line in n.dialogues
  {
    [Emit(NpcDialogue(n.npcType, n.dialogues[LineIndex(|n.dialogues|, r)]))]
  }

  /** A character as the interaction code and the collision sweep see it. */
  function AsEntity(n: Npc): (e: Entity)
    ensures e.uid == n.uid && e.name == n.name && e.kind == Character(n.npcType)
    ensures e.position == Vec3(n.x, 0.0, n.z)
  {
    Entity(n.uid, n.name, Vec3(n.x, 0.0, n.z), Character(n.npcType))
  }

  /** The first character with the identity `uid`. */
  function Find(chars: seq<Npc>, uid: nat): (r: Option<nat>)
    ensures r.Some? ==>
      r.value < |chars| && chars[r.value].uid == uid &&
      forall j :: 0 <= j < r.value ==> chars[j].uid != uid
    ensures r.None? ==> forall j :: 0 <= j < |chars| ==> chars[j].uid != uid
    decreases |chars|
  {
    if chars == [] then None
    else if chars[0].uid == uid then Some(0)
    else
      var rest := Find(chars[1..], uid);
      if rest.Some? then Some(rest.value + 1) else None
  }

  /** Every character has a type of the table and the 16 lines every type has; identities are
      distinct. Which lines they are is `Scripted`. */
  ghost predicate WellTyped(chars: seq<Npc>)
  {
    (forall i :: 0 <= i < |chars| ==>
      chars[i].npcType in Types && |chars[i].dialogues| == 16) &&
    (forall i, j :: 0 <= i < j < |chars| ==> chars[i].uid != chars[j].uid)
  }

  /** The `interact` listener: an object flagged `isNPC` is one of the characters, and talking
      to it emits its dialogue; any other object is ignored. */
  function Interacted(chars: seq<Npc>, target: Entity, r: real): (effects: seq<Effect>)
    requires WellTyped(chars) && Draw(r)
    ensures !target.kind.Character? ==> effects == []
    ensures target.kind.Character? && Find(chars, target.uid).Some? ==>
      effects == Dialogue(chars[Find(chars, target.uid).value], r)
  {
    if !target.kind.Character? then []
    else
      var i := Find(chars, target.uid);
      if i.None? then [] else Dialogue(chars[i.value], r)
  }

  /** Every character speaks the lines of its own type. */
  ghost predicate Scripted(chars: seq<Npc>, scripts: map<string, seq<string>>)
  {
    forall i :: 0 <= i < |chars| ==>
      chars[i].npcType in scripts && chars[i].dialogues == scripts[chars[i].npcType]
  }

  /** Talking to any character of the roster emits one of its own lines. */
  lemma TalkToCharacter(chars: seq<Npc>, k: nat, r: real)
    requires WellTyped(chars) && Draw(r) && k < |chars|
    ensures var effects := Interacted(chars, AsEntity(chars[k]), r);
      |effects| == 1 && effects[0].Emit? && effects[0].event.NpcDialogue? &&
      effects[0].event.npcType == chars[k].npcType &&
      effects[0].event.line in chars[k].dialogues
  {
    var i := Find(chars, chars[k].uid);
    assert i.Some?;
    assert i.value == k;
  }

  // ---------------------------------------------------------------------------------------------
  // The object

  class NPCs {
    var characters: seq<Npc>
    /** The `dialogues` part of `this.types`. */
    const scripts: map<string, seq<string>>

    constructor ()
      ensures characters == [] && scripts == Scripts && Fits(scripts)
    {
      characters := [];
      scripts := Scripts;
      ScriptTable();
    }

    /** `getNPCs`, as entities. */
    function Entities(): (es: seq<Entity>)
      reads this
      ensures |es| == |characters|
      ensures forall i :: 0 <= i < |es| ==> es[i] == AsEntity(characters[i])
    {
      seq(|characters|, i requires 0 <= i < |characters| reads this => AsEntity(characters[i]))
    }

    method CreateNPC(uid: nat, npcType: string, x: real, z: real, looks: Looks)
        returns (created: Option<Npc>)
      requires Fits(scripts) && Draw(looks.badgeDraw) && Draw(looks.overlayDraw)
      modifies this
      ensures (characters, created) == Created(old(characters), uid, npcType, scripts, x, z, looks)
    {
      if npcType !in Types {
        return None;
      }
      var t := Types[npcType];
      var range := BadgeRange(t.solValue);
      var badge := RandomInt(range.0, range.1, looks.badgeDraw);
      var overlay := if looks.overlayDraw > 0.5 then None else OverlayKey(npcType);
      var npc := Npc(uid, npcType, Capitalized(npcType), scripts[npcType], t.moveSpeed,
                     x, z, x, z, 0.0, 50.0, badge, overlay);
      characters := characters + [npc];
      created := Some(npc);
    }

    /** `createInitialNPCs`, the characters taking the identities `firstUid`, `firstUid + 1`, ... */
    method CreateInitialNPCs(firstUid: nat, looks: seq<Looks>, fifth: (real, real))
      requires |looks| == 5 && Fits(scripts)
      requires forall i :: 0 <= i < 5 ==> Draw(looks[i].badgeDraw) && Draw(looks[i].overlayDraw)
      requires Draw(fifth.0) && Draw(fifth.1)
      modifies this
      ensures characters == old(characters) + Initial(firstUid, looks, fifth, scripts, 5)
    {
      var positions := [(5, 5), (-5, 5), (5, -5), (-5, -5)];
      for i := 0 to 5
        invariant characters == old(characters) + Initial(firstUid, looks, fifth, scripts, i)
      {
        var p := if i < |positions| then positions[i]
                 else (RandomInt(-10, 10, fifth.0), RandomInt(-10, 10, fifth.1));
        assert p == Spot(i, fifth);
        InitialNext(firstUid, looks, fifth, scripts, i);
        ghost var n := NewNpc(firstUid + i, TypeOrder[i], scripts, p.0 as real, p.1 as real, looks[i]);
        ghost var before := Initial(firstUid, looks, fifth, scripts, i);
        var _ := CreateNPC(firstUid + i, TypeOrder[i], p.0 as real, p.1 as real, looks[i]);
        AppendOne(old(characters), before, n);
      }
    }

    /** The wander part of `update(deltaTime)`: every character in turn retargets if its timer
        ran out and steps toward its target. `distances[i]` is the square root the source takes
        for the `i`-th character. */
    method Update(deltaTime: real, draws: seq<Wander>, distances: seq<real>)
      requires Distances(characters, deltaTime, draws, distances)
      modifies this
      ensures |characters| == |old(characters)|
      ensures forall i :: 0 <= i < |characters| ==>
        characters[i] == Wandered(old(characters)[i], deltaTime, draws[i], distances[i])
    {
      var i := 0;
      while i < |characters|
        invariant 0 <= i <= |characters| == |old(characters)|
        invariant forall j :: 0 <= j < i ==>
          characters[j] == Wandered(old(characters)[j], deltaTime, draws[j], distances[j])
        invariant forall j :: i <= j < |characters| ==> characters[j] == old(characters)[j]
      {
        var npc := Retarget(characters[i], deltaTime, draws[i]);
        npc := Walk(npc, deltaTime, distances[i]);
        characters := characters[i := npc];
        i := i + 1;
      }
    }

    /** The timer and retarget part of one character's update. */
    static method Retarget(npc: Npc, deltaTime: real, w: Wander) returns (r: Npc)
      requires WanderDraws(w)
      ensures r == Retargeted(npc, deltaTime, w)
    {
      r := npc.(movementTimer := npc.movementTimer - deltaTime);
      if r.movementTimer <= 0.0 {
        if w.journey < 0.3 {
          r := r.(targetX := Around(r.x, w.offsetX, r.wanderRadius, 2.0),
                  targetZ := Around(r.z, w.offsetZ, r.wanderRadius, 2.0),
                  movementTimer := RandomInt(10, 20, w.wait) as real);
        } else {
          r := r.(targetX := Around(r.x, w.offsetX, r.wanderRadius, 0.4),
                  targetZ := Around(r.z, w.offsetZ, r.wanderRadius, 0.4),
                  movementTimer := RandomInt(3, 8, w.wait) as real);
        }
      }
    }

    /** The move part of one character's update; `distance` is the square root of its squared
        distance to the target. */
    static method Walk(npc: Npc, deltaTime: real, distance: real) returns (r: Npc)
      ensures r == Walked(npc, deltaTime, distance)
    {
      r := npc;
      if distance > 0.1 {
        var step := npc.moveSpeed * deltaTime * 0.5;
        r := npc.(x := npc.x + (npc.targetX - npc.x) / distance * step,
                  z := npc.z + (npc.targetZ - npc.z) / distance * step);
      }
    }

    /** The `interact` listener registered by `init`; `r` is the draw that picks the line. */
    method OnInteract(target: Entity, r: real) returns (effects: seq<Effect>)
      requires WellTyped(characters) && Draw(r)
      ensures effects == Interacted(characters, target, r)
    {
      effects := [];
      if target.kind.Character? {
        var i := Find(characters, target.uid);
        if i.Some? {
          var npc := characters[i.value];
          var line := npc.dialogues[LineIndex(|npc.dialogues|, r)];
          effects := [Emit(NpcDialogue(npc.npcType, line))];
        }
      }
    }
  }
}
