/** The story campaign and the level manager (level.py): validation of a
    parsed campaign with a built-in fallback, the level records, and the
    LevelManager that builds a level's entity lists, fires checkpoints and
    scripted events once each, applies event effects and advances through
    the levels. */
module Level {
  import opened Common
  import opened Geometry
  import opened Constants
  import S = Settings
  import E = Enemy

  // ---------------------------------------------------------------------
  // Campaign validation
  // ---------------------------------------------------------------------

  /** A parsed JSON value. */
  datatype Json =
    | JNull
    | JBool(b: bool)
    | JNumber(n: real)
    | JString(s: string)
    | JArray(items: seq<Json>)
    | JObject(fields: map<string, Json>)

  /** A campaign the game can run: an object whose "levels" is a non-empty
      array. */
  predicate IsCampaign(j: Json) {
    && j.JObject?
    && "levels" in j.fields
    && j.fields["levels"].JArray?
    && |j.fields["levels"].items| > 0
  }

  /** The file may wrap the campaign as {"campaign": {...}}. */
  function Unwrapped(raw: Json): Json
    requires raw.JObject?
  {
    if "campaign" in raw.fields then raw.fields["campaign"] else raw
  }

  function JInts(xs: seq<int>): Json {
    JArray(seq(|xs|, i requires 0 <= i < |xs| => JNumber(xs[i] as real)))
  }

  function NarratorLine(text: string): Json {
    JObject(map["speaker" := JString("Narrator"), "portrait" := JNull,
                "speed" := JNumber(30.0), "text" := JString(text)])
  }

  /** The campaign used when the story file cannot be used: one level. */
  function DefaultCampaign(): (c: Json)
    ensures IsCampaign(c)
  {
    var level := JObject(map[
      "id" := JString("fallback_village"),
      "name" := JString("Snowy Village"),
      "width" := JNumber(1600.0),
      "height" := JNumber(600.0),
      "player_start" := JInts([80, 480]),
      "goal" := JInts([1500, 480, 60, 80]),
      "ground" := JInts([0, 560, 1600, 40]),
      "platforms" := JArray([JInts([200, 430, 160, 20]), JInts([420, 330, 160, 20]),
                             JInts([700, 460, 200, 20]), JInts([1100, 380, 200, 20]),
                             JInts([1350, 300, 180, 20])]),
      "presents" := JArray([JInts([220, 400, 30, 30]), JInts([460, 300, 30, 30]),
                            JInts([760, 430, 30, 30]), JInts([1120, 350, 30, 30]),
                            JInts([1370, 270, 30, 30])]),
      "enemies" := JArray([
        JArray([JNumber(600.0), JNumber(520.0), JNumber(40.0), JNumber(40.0),
                JNumber(500.0), JNumber(740.0), JNumber(2.0)]),
        JArray([JNumber(1300.0), JNumber(340.0), JNumber(40.0), JNumber(40.0),
                JNumber(1250.0), JNumber(1450.0), JNumber(1.5)])]),
      "powerups" := JArray([
        JObject(map["rect" := JInts([520, 480, 24, 24]), "type" := JString(DOUBLE_JUMP)]),
        JObject(map["rect" := JInts([900, 420, 24, 24]), "type" := JString(SPEED_BOOST)])]),
      "story" := JObject(map[
        "intro" := JArray([NarratorLine("Welcome to the fallback story. Collect presents and reach the tree!")]),
        "outro" := JArray([NarratorLine("Well done!")]),
        "interludes" := JArray([])])
    ]);
    JObject(map[
      "title" := JString("Fallback Holiday"),
      "description" := JString("Default campaign used when the story JSON cannot be read."),
      "levels" := JArray([level])
    ])
  }

  /** load_campaign_data on the parsed file (None when the file is missing
      or not JSON): the campaign is kept exactly when it is valid, and
      otherwise replaced by the fallback, so the result is always valid. */
  function LoadCampaignData(raw: Option<Json>): (c: Json)
    ensures IsCampaign(c)
    ensures raw.Some? && raw.value.JObject? && IsCampaign(Unwrapped(raw.value)) ==> c == Unwrapped(raw.value)
    ensures !(raw.Some? && raw.value.JObject? && IsCampaign(Unwrapped(raw.value))) ==> c == DefaultCampaign()
  {
    if raw.Some? && raw.value.JObject? && IsCampaign(Unwrapped(raw.value)) then Unwrapped(raw.value)
    else DefaultCampaign()
  }

  // ---------------------------------------------------------------------
  // Level records
  // ---------------------------------------------------------------------

  /** One line of dialogue; its contents are opaque to the simulation. */
  datatype Line = Line(speaker: string, text: string)

  /** An interlude; a missing sequence is empty. */
  datatype Interlude = Interlude(id: Option<string>, sequence: seq<Line>)

  /** A level's story; missing or empty parts are empty. */
  datatype StoryData = StoryData(intro: seq<Line>, outro: seq<Line>, interludes: seq<Interlude>)

  datatype PowerupEntry = PowerupEntry(rect: Option<Rect>, ptype: Option<string>)

  /** An enemy tuple; a missing speed is 2 pixels per frame. */
  datatype EnemyEntry = EnemyEntry(x: int, y: int, w: nat, h: nat, patrolMin: int, patrolMax: int, speed: Option<int>)

  datatype CheckpointEntry = CheckpointEntry(id: Option<string>, rect: Option<Rect>, respawn: Option<seq<int>>, story: Option<string>)

  /** An event's payload; missing platforms are none. */
  datatype Payload = Payload(rect: Option<Rect>, ptype: Option<string>, platforms: seq<Rect>)

  datatype EventEntry = EventEntry(trigger: Option<string>, effect: Option<string>, payload: Option<Payload>)

  /** A level record of the campaign; lists that are missing are empty. */
  datatype LevelData = LevelData(
    name: Option<string>,
    width: Option<nat>, height: Option<nat>,
    ground: Option<Rect>, platforms: seq<Rect>,
    presents: seq<Rect>, powerups: seq<PowerupEntry>, enemies: seq<EnemyEntry>,
    playerStart: Option<(int, int)>, goal: Option<Rect>,
    story: Option<StoryData>,
    checkpoints: seq<CheckpointEntry>, events: seq<EventEntry>)

  // ---------------------------------------------------------------------
  // Runtime entities
  // ---------------------------------------------------------------------

  /** A present (tag: its texture) or a powerup (tag: its type). */
  datatype Item = Item(rect: Rect, tag: string)

  datatype Checkpoint = Checkpoint(id: string, rect: Rect, respawn: (int, int), story: Option<string>, triggered: bool)

  /** A parsed event: the record, its trigger split at the first ':', and
      whether it has fired. */
  datatype Event = Event(entry: EventEntry, triggerType: string, triggerValue: string, fired: bool)

  /** The progress value passed with a trigger: a count of presents or a
      checkpoint id. */
  datatype ProgressValue = Count(n: int) | CheckpointId(id: string)

  const PRESENT_TEXTURES: seq<string> := ["present", "present1", "present2", "present3"]

  const DEFAULT_ENEMY_SPEED: int := 2 * SCALE

  predicate Distinct(es: seq<E.Enemy>) {
    forall i, j :: 0 <= i < j < |es| ==> es[i] != es[j]
  }

  // ---------------------------------------------------------------------
  // Building a level's lists
  // ---------------------------------------------------------------------

  /** The powerup entries that have both a rect and a type, in order. */
  function KeptPowerups(entries: seq<PowerupEntry>): (r: seq<Item>)
    ensures |r| <= |entries|
    ensures forall it :: it in r ==> PowerupEntry(Some(it.rect), Some(it.tag)) in entries
    ensures forall e :: e in entries && e.rect.Some? && e.ptype.Some? ==> Item(e.rect.value, e.ptype.value) in r
    ensures (forall e :: e in entries ==> e.rect.Some? && e.ptype.Some?) ==> |r| == |entries|
    decreases |entries|
  {
    if entries == [] then []
    else
      var init := KeptPowerups(entries[..|entries| - 1]);
      var e := entries[|entries| - 1];
      assert forall x :: x in entries[..|entries| - 1] ==> x in entries;
      assert forall x :: x in entries ==> x in entries[..|entries| - 1] || x == e;
      if e.rect.Some? && e.ptype.Some? then init + [Item(e.rect.value, e.ptype.value)] else init
  }

  /** Filtering commutes with concatenation, so the kept powerups keep the
      order of their entries. */
  lemma {:induction false} KeptPowerupsAppend(a: seq<PowerupEntry>, b: seq<PowerupEntry>)
    ensures KeptPowerups(a + b) == KeptPowerups(a) + KeptPowerups(b)
    decreases |b|
  {
    if b == [] {
      assert a + b == a;
    } else {
      var b' := b[..|b| - 1];
      assert (a + b)[..|a + b| - 1] == a + b';
      assert (a + b)[|a + b| - 1] == b[|b| - 1];
      KeptPowerupsAppend(a, b');
    }
  }

  /** An enemy as its record creates it. */
  function EnemyOf(e: EnemyEntry): E.EnemyState {
    var speed := GetOr(e.speed, DEFAULT_ENEMY_SPEED);
    E.EnemyState(Rect(e.x, e.y, e.w, e.h), speed, e.patrolMin, e.patrolMax, speed)
  }

  /** Difficulty scaling: a new speed, and vx set to it with the sign vx had. */
  function Rescale(e: E.EnemyState, pct: int): (r: E.EnemyState)
    ensures r.speed == ScaledByPct(e.speed, pct)
    ensures r.vx == (if e.vx >= 0 then r.speed else -r.speed)
    ensures r == e.(speed := r.speed, vx := r.vx)
  {
    var speed := ScaledByPct(e.speed, pct);
    e.(speed := speed, vx := if e.vx >= 0 then speed else -speed)
  }

  /** An enemy of a freshly loaded level; scaling is skipped at 100%. */
  function LoadedEnemy(e: EnemyEntry, pct: int): E.EnemyState {
    if pct != 100 then Rescale(EnemyOf(e), pct) else EnemyOf(e)
  }

  /** With a non-negative speed, scaling keeps the direction of travel and
      makes vx a signed copy of the new speed; position and range are kept. */
  lemma RescaleKeepsDirection(e: E.EnemyState, pct: int)
    requires e.speed >= 0 && pct >= 0
    ensures e.vx >= 0 ==> Rescale(e, pct).vx >= 0
    ensures e.vx < 0 ==> Rescale(e, pct).vx <= 0
    ensures Abs(Rescale(e, pct).vx) == Rescale(e, pct).speed
    ensures Rescale(e, pct).rect == e.rect
    ensures Rescale(e, pct).patrolMin == e.patrolMin && Rescale(e, pct).patrolMax == e.patrolMax
  {
  }

  /** A record with a negative speed starts moving left; once scaled (to a
      non-zero speed) its vx, which was negative, is set from the sign test
      on vx to minus a negative speed, so it moves right. */
  lemma RescaleTurnsNegativeSpeed(e: EnemyEntry, pct: int)
    requires e.speed.Some? && e.speed.value < 0 && pct >= 0 && pct != 100 && ScaledByPct(e.speed.value, pct) != 0
    ensures EnemyOf(e).vx < 0
    ensures LoadedEnemy(e, pct).vx > 0
  {
  }

  /** A checkpoint as load_level builds it, at a position of the list. */
  function CheckpointOf(e: CheckpointEntry, position: nat, start: (int, int)): (c: Checkpoint)
    ensures !c.triggered
    ensures e.id.None? ==> c.id == "checkpoint_" + NatToString(position)
    ensures e.respawn.None? || |e.respawn.value| < 2 ==> c.respawn == start
  {
    var respawn :=
      if e.respawn.Some? && |e.respawn.value| >= 2 then (e.respawn.value[0], e.respawn.value[1])
      else start;
    Checkpoint(GetOr(e.id, "checkpoint_" + NatToString(position)), GetOr(e.rect, Rect(0, 0, 0, 0)),
               respawn, e.story, false)
  }

  /** Checkpoints without an id of their own get pairwise different ids. */
  lemma DefaultCheckpointIdsDiffer(a: CheckpointEntry, i: nat, b: CheckpointEntry, j: nat, start: (int, int))
    requires a.id.None? && b.id.None? && i != j
    ensures CheckpointOf(a, i, start).id != CheckpointOf(b, j, start).id
  {
    NumberedNamesDiffer("checkpoint_", i, j);
  }

  /** trigger.split(":", 1), with the no-colon case giving an empty value. */
  function SplitTrigger(t: string): (r: (string, string))
    ensures ':' !in r.0
    ensures ':' in t ==> t == r.0 + ":" + r.1
    ensures ':' !in t ==> r == (t, "")
  {
    if t == [] then ("", "")
    else if t[0] == ':' then ("", t[1..])
    else
      var rest := SplitTrigger(t[1..]);
      assert t == [t[0]] + t[1..];
      ([t[0]] + rest.0, rest.1)
  }

  /** An event as _parse_events builds it: never fired yet. */
  function ParseEvent(e: EventEntry): (ev: Event)
    ensures !ev.fired && ev.entry == e
    ensures ':' !in ev.triggerType
    ensures ':' !in GetOr(e.trigger, "") ==> ev.triggerType == GetOr(e.trigger, "") && ev.triggerValue == ""
  {
    var parts := SplitTrigger(GetOr(e.trigger, ""));
    Event(e, parts.0, parts.1, false)
  }

  /** Build the present list, giving each present one of the textures. */
  method BuildPresents(rects: seq<Rect>) returns (items: seq<Item>)
    ensures |items| == |rects|
    ensures forall i :: 0 <= i < |items| ==> items[i].rect == rects[i] && items[i].tag in PRESENT_TEXTURES
  {
    items := [];
    var i := 0;
    while i < |rects|
      invariant 0 <= i <= |rects| && |items| == i
      invariant forall k :: 0 <= k < i ==> items[k].rect == rects[k] && items[k].tag in PRESENT_TEXTURES
    {
      assert PRESENT_TEXTURES[0] in PRESENT_TEXTURES;
      var texture :| texture in PRESENT_TEXTURES;
      items := items + [Item(rects[i], texture)];
      i := i + 1;
    }
  }

  /** Create the enemies of a level, then scale their speed unless the
      multiplier is 100%. */
  method BuildEnemies(entries: seq<EnemyEntry>, pct: int) returns (es: seq<E.Enemy>)
    ensures |es| == |entries| && Distinct(es)
    ensures forall i :: 0 <= i < |es| ==> fresh(es[i])
    ensures forall i :: 0 <= i < |es| ==> es[i].State() == LoadedEnemy(entries[i], pct)
  {
    es := [];
    var i := 0;
    while i < |entries|
      invariant 0 <= i <= |entries| && |es| == i && Distinct(es)
      invariant forall k :: 0 <= k < i ==> fresh(es[k])
      invariant forall k :: 0 <= k < i ==> es[k].State() == EnemyOf(entries[k])
    {
      var e := entries[i];
      var enemy := new E.Enemy(e.x, e.y, e.w, e.h, e.patrolMin, e.patrolMax, GetOr(e.speed, DEFAULT_ENEMY_SPEED));
      es := es + [enemy];
      i := i + 1;
    }
    if pct != 100 {
      i := 0;
      while i < |es|
        invariant 0 <= i <= |es|
        invariant forall k :: 0 <= k < |es| ==> fresh(es[k])
        invariant forall k :: 0 <= k < i ==> es[k].State() == Rescale(EnemyOf(entries[k]), pct)
        invariant forall k :: i <= k < |es| ==> es[k].State() == EnemyOf(entries[k])
      {
        var enemy := es[i];
        enemy.speed := ScaledByPct(enemy.speed, pct);
        enemy.vx := if enemy.vx >= 0 then enemy.speed else -enemy.speed;
        i := i + 1;
      }
    }
  }

  /** The checkpoints of a level record, in order. */
  function CheckpointsFrom(entries: seq<CheckpointEntry>, start: (int, int)): seq<Checkpoint> {
    seq(|entries|, i requires 0 <= i < |entries| => CheckpointOf(entries[i], i, start))
  }

  method BuildCheckpoints(entries: seq<CheckpointEntry>, start: (int, int)) returns (cps: seq<Checkpoint>)
    ensures cps == CheckpointsFrom(entries, start)
  {
    cps := [];
    var i := 0;
    while i < |entries|
      invariant 0 <= i <= |entries| && cps == CheckpointsFrom(entries[..i], start)
    {
      cps := cps + [CheckpointOf(entries[i], |cps|, start)];
      i := i + 1;
    }
    assert entries[..i] == entries;
  }

  /** The parsed events of a level record, in order. */
  function EventsFrom(entries: seq<EventEntry>): seq<Event> {
    seq(|entries|, i requires 0 <= i < |entries| => ParseEvent(entries[i]))
  }

  /** _parse_events: same length, nothing fired, every type colon-free. */
  method ParseEvents(entries: seq<EventEntry>) returns (events: seq<Event>)
    ensures events == EventsFrom(entries)
    ensures |events| == |entries|
    ensures forall i :: 0 <= i < |events| ==> !events[i].fired && ':' !in events[i].triggerType
  {
    events := [];
    var i := 0;
    while i < |entries|
      invariant 0 <= i <= |entries| && events == EventsFrom(entries[..i])
    {
      var trigger := GetOr(entries[i].trigger, "");
      var parts := SplitTrigger(trigger);
      events := events + [Event(entries[i], parts.0, parts.1, false)];
      i := i + 1;
    }
    assert entries[..i] == entries;
  }

  // ---------------------------------------------------------------------
  // Story
  // ---------------------------------------------------------------------

  function StoryOf(story: Option<StoryData>): StoryData {
    GetOr(story, StoryData([], [], []))
  }

  /** An interlude with a non-empty id is registered. */
  predicate Registered(it: Interlude) {
    it.id.Some? && it.id.value != ""
  }

  /** The interludes by id; of several with the same id the last one wins. */
  function InterludeMap(items: seq<Interlude>): (m: map<string, seq<Line>>)
    ensures forall k :: k in m ==> exists i :: 0 <= i < |items| && Registered(items[i]) && items[i].id.value == k
    ensures forall i :: 0 <= i < |items| && Registered(items[i]) ==> items[i].id.value in m
    decreases |items|
  {
    if items == [] then map[]
    else
      var init := items[..|items| - 1];
      var m := InterludeMap(init);
      var it := items[|items| - 1];
      assert forall i :: 0 <= i < |init| ==> init[i] == items[i];
      if Registered(it) then m[it.id.value := it.sequence] else m
  }

  /** The sequence stored under an id is that of the last interlude with
      that id. */
  lemma {:induction false} InterludeLastWins(items: seq<Interlude>, i: nat)
    requires i < |items| && Registered(items[i])
    requires forall j :: i < j < |items| ==> items[j].id != items[i].id
    ensures InterludeMap(items)[items[i].id.value] == items[i].sequence
    decreases |items|
  {
    if i < |items| - 1 {
      var init := items[..|items| - 1];
      assert init[i] == items[i];
      InterludeLastWins(init, i);
    }
  }

  /** The registry: intro and outro, then the interludes, which take
      precedence on a clash of names. */
  function StoryRegistry(intro: seq<Line>, outro: seq<Line>, interludes: map<string, seq<Line>>): (r: map<string, seq<Line>>)
    ensures r.Keys == interludes.Keys + {"intro", "outro"}
    ensures forall k :: k in interludes ==> r[k] == interludes[k]
    ensures "intro" !in interludes ==> r["intro"] == intro
    ensures "outro" !in interludes ==> r["outro"] == outro
  {
    map["intro" := intro, "outro" := outro] + interludes
  }

  /** The level names shown by the level selector. */
  function LevelNames(levels: seq<LevelData>): (names: seq<string>)
    ensures |names| == |levels|
    ensures forall i :: 0 <= i < |levels| && levels[i].name.Some? ==> names[i] == levels[i].name.value
    ensures forall i :: 0 <= i < |levels| && levels[i].name.None? ==> names[i] == "Level " + NatToString(i + 1)
  {
    seq(|levels|, i requires 0 <= i < |levels| => GetOr(levels[i].name, "Level " + NatToString(i + 1)))
  }

  /** Levels without a name of their own get pairwise different names. */
  lemma DefaultLevelNamesDiffer(levels: seq<LevelData>, i: nat, j: nat)
    requires i < |levels| && j < |levels| && i != j
    requires levels[i].name.None? && levels[j].name.None?
    ensures LevelNames(levels)[i] != LevelNames(levels)[j]
  {
    NumberedNamesDiffer("Level ", i + 1, j + 1);
  }

  // ---------------------------------------------------------------------
  // Checkpoints and events
  // ---------------------------------------------------------------------

  /** The first untriggered checkpoint with the id. */
  function FirstUntriggered(cps: seq<Checkpoint>, id: string): (k: Option<nat>)
    ensures k.Some? ==> k.value < |cps| && cps[k.value].id == id && !cps[k.value].triggered
    ensures k.Some? ==> forall j :: 0 <= j < k.value ==> cps[j].id != id || cps[j].triggered
    ensures k.None? ==> forall j :: 0 <= j < |cps| ==> cps[j].id != id || cps[j].triggered
    decreases |cps|
  {
    if cps == [] then None
    else if cps[0].id == id && !cps[0].triggered then Some(0)
    else match FirstUntriggered(cps[1..], id)
      case None => None
      case Some(k) => Some(k + 1)
  }

  /** After a checkpoint is triggered, the next activation with the same id
      can only reach a later checkpoint with that id, and with unique ids
      none at all. */
  lemma ActivationIsOnce(cps: seq<Checkpoint>, id: string)
    requires FirstUntriggered(cps, id).Some?
    ensures var k := FirstUntriggered(cps, id).value;
            var next := FirstUntriggered(cps[k := cps[k].(triggered := true)], id);
            next.None? || next.value > k
    ensures (forall i, j :: 0 <= i < j < |cps| ==> cps[i].id != cps[j].id) ==>
              var k := FirstUntriggered(cps, id).value;
              FirstUntriggered(cps[k := cps[k].(triggered := true)], id).None?
  {
  }

  /** The first untriggered checkpoint the rectangle overlaps. */
  function FirstTouched(cps: seq<Checkpoint>, r: Rect): (k: Option<nat>)
    ensures k.Some? ==> k.value < |cps| && !cps[k.value].triggered && r.Collides(cps[k.value].rect)
    ensures k.Some? ==> forall j :: 0 <= j < k.value ==> cps[j].triggered || !r.Collides(cps[j].rect)
    ensures k.None? ==> forall j :: 0 <= j < |cps| ==> cps[j].triggered || !r.Collides(cps[j].rect)
    decreases |cps|
  {
    if cps == [] then None
    else if !cps[0].triggered && r.Collides(cps[0].rect) then Some(0)
    else match FirstTouched(cps[1..], r)
      case None => None
      case Some(k) => Some(k + 1)
  }

  /** Whether an event's condition holds for the value. A count fires a
      presents_collected event once it reaches the number in the trigger,
      and never when that is not a number; checkpoint_reached needs the
      same id; any other type fires at once. */
  function ShouldFire(triggerType: string, triggerValue: string, value: ProgressValue): (b: bool)
    requires triggerType == "presents_collected" ==> value.Count?
    ensures triggerType == "presents_collected" ==>
              (b <==> ParseInt(triggerValue).Some? && value.n >= ParseInt(triggerValue).value)
    ensures triggerType == "checkpoint_reached" ==> (b <==> value == CheckpointId(triggerValue))
    ensures triggerType != "presents_collected" && triggerType != "checkpoint_reached" ==> b
  {
    if triggerType == "presents_collected" then
      match ParseInt(triggerValue)
      case None => false
      case Some(target) => value.n >= target
    else if triggerType == "checkpoint_reached" then value == CheckpointId(triggerValue)
    else true
  }

  /** handle_progress_event fires an event when it has not fired, has the
      type, and its condition holds. */
  predicate Fires(ev: Event, triggerType: string, value: ProgressValue)
    requires triggerType == "presents_collected" ==> value.Count?
  {
    !ev.fired && ev.triggerType == triggerType && ShouldFire(triggerType, ev.triggerValue, value)
  }

  /** The event list after handle_progress_event. */
  function MarkFired(events: seq<Event>, triggerType: string, value: ProgressValue): (r: seq<Event>)
    requires triggerType == "presents_collected" ==> value.Count?
    ensures |r| == |events|
    ensures forall i :: 0 <= i < |r| ==> r[i] == events[i].(fired := events[i].fired || Fires(events[i], triggerType, value))
  {
    seq(|events|, i requires 0 <= i < |events| =>
      if Fires(events[i], triggerType, value) then events[i].(fired := true) else events[i])
  }

  /** The events handle_progress_event returns: the newly fired ones, in
      list order. */
  function FiredBy(events: seq<Event>, triggerType: string, value: ProgressValue): (r: seq<Event>)
    requires triggerType == "presents_collected" ==> value.Count?
    decreases |events|
  {
    if events == [] then []
    else
      var init := events[..|events| - 1];
      var last := events[|events| - 1];
      FiredBy(init, triggerType, value) + (if Fires(last, triggerType, value) then [last.(fired := true)] else [])
  }

  /** Every event handle_progress_event returns is fired, has the handled
      type, and was on the list before it fired. */
  lemma {:induction false} FiredByComesFromList(events: seq<Event>, triggerType: string, value: ProgressValue)
    requires triggerType == "presents_collected" ==> value.Count?
    ensures |FiredBy(events, triggerType, value)| <= |events|
    ensures forall ev :: ev in FiredBy(events, triggerType, value) ==>
              ev.fired && ev.triggerType == triggerType && ev.(fired := false) in events
    decreases |events|
  {
    if events != [] {
      var init := events[..|events| - 1];
      FiredByComesFromList(init, triggerType, value);
      assert forall ev :: ev in init ==> ev in events;
    }
  }

  /** Conversely, every event that fires is returned. */
  lemma {:induction false} FiredByComplete(events: seq<Event>, triggerType: string, value: ProgressValue)
    requires triggerType == "presents_collected" ==> value.Count?
    ensures forall i :: 0 <= i < |events| && Fires(events[i], triggerType, value) ==>
              events[i].(fired := true) in FiredBy(events, triggerType, value)
    decreases |events|
  {
    if events != [] {
      var n := |events| - 1;
      var init := events[..n];
      FiredByComplete(init, triggerType, value);
      var fired := FiredBy(events, triggerType, value);
      assert fired == FiredBy(init, triggerType, value)
                      + (if Fires(events[n], triggerType, value) then [events[n].(fired := true)] else []);
      forall i | 0 <= i < n && Fires(events[i], triggerType, value)
        ensures events[i].(fired := true) in fired
      {
        assert events[i] == init[i];
      }
    }
  }

  /** There are exactly as many returned events as events that fire, which
      are the events the marking flips. */
  lemma {:induction false} FiredByCount(events: seq<Event>, triggerType: string, value: ProgressValue)
    requires triggerType == "presents_collected" ==> value.Count?
    ensures |FiredBy(events, triggerType, value)|
            == |set i | 0 <= i < |events| && MarkFired(events, triggerType, value)[i] != events[i]|
    decreases |events|
  {
    var marked := MarkFired(events, triggerType, value);
    assert Differing(marked, events) == set i | 0 <= i < |events| && MarkFired(events, triggerType, value)[i] != events[i];
    if events == [] {
      assert Differing(marked, events) == {};
    } else {
      var n := |events| - 1;
      var init := events[..n];
      var markedInit := MarkFired(init, triggerType, value);
      FiredByCount(init, triggerType, value);
      var last := Fires(events[n], triggerType, value);
      assert |FiredBy(events, triggerType, value)| == |FiredBy(init, triggerType, value)| + (if last then 1 else 0);
      assert forall i :: 0 <= i < n ==> marked[i] == markedInit[i] && events[i] == init[i];
      assert marked[n] != events[n] <==> last;
      DiffersOneMore(marked, events, markedInit, init);
      assert Differing(markedInit, init) == set i | 0 <= i < |init| && MarkFired(init, triggerType, value)[i] != init[i];
    }
  }

  /** The positions where two lists of the same length differ. */
  ghost function Differing<T>(a: seq<T>, b: seq<T>): set<int>
    requires |a| == |b|
  {
    set i | 0 <= i < |b| && a[i] != b[i]
  }

  /** The positions where two lists differ, counted one element at a time. */
  lemma DiffersOneMore<T>(a: seq<T>, b: seq<T>, a0: seq<T>, b0: seq<T>)
    requires |a| == |b| > 0 && |a0| == |b0| == |a| - 1
    requires forall i :: 0 <= i < |a0| ==> a[i] == a0[i] && b[i] == b0[i]
    ensures |Differing(a, b)| == |Differing(a0, b0)| + (if a[|b0|] != b[|b0|] then 1 else 0)
  {
    var n := |b0|;
    if a[n] != b[n] {
      assert Differing(a, b) == Differing(a0, b0) + {n};
    } else {
      assert Differing(a, b) == Differing(a0, b0);
    }
  }

  /** Once handled, the same trigger fires nothing more, and handling it
      again leaves the events as they are: each event fires at most once. */
  lemma {:induction false} FiresAtMostOnce(events: seq<Event>, triggerType: string, value: ProgressValue)
    requires triggerType == "presents_collected" ==> value.Count?
    ensures FiredBy(MarkFired(events, triggerType, value), triggerType, value) == []
    ensures MarkFired(MarkFired(events, triggerType, value), triggerType, value) == MarkFired(events, triggerType, value)
    decreases |events|
  {
    var marked := MarkFired(events, triggerType, value);
    if events != [] {
      var init := events[..|events| - 1];
      FiresAtMostOnce(init, triggerType, value);
      assert marked[..|marked| - 1] == MarkFired(init, triggerType, value);
    }
  }

  /** Only events of the handled type change. */
  lemma OtherTypesUntouched(events: seq<Event>, triggerType: string, value: ProgressValue, i: nat)
    requires triggerType == "presents_collected" ==> value.Count?
    requires i < |events| && events[i].triggerType != triggerType
    ensures MarkFired(events, triggerType, value)[i] == events[i]
  {
  }

  /** The decision handle_progress_event makes for one event of the type;
      a trigger value that is not a number never fires. */
  method DecideFire(triggerType: string, triggerValue: string, value: ProgressValue) returns (shouldFire: bool)
    requires triggerType == "presents_collected" ==> value.Count?
    ensures shouldFire == ShouldFire(triggerType, triggerValue, value)
  {
    shouldFire := false;
    if triggerType == "presents_collected" {
      var target := ParseInt(triggerValue);
      if target.Some? {
        shouldFire := value.n >= target.value;
      }
    } else if triggerType == "checkpoint_reached" {
      shouldFire := value == CheckpointId(triggerValue);
    } else {
      shouldFire := true;
    }
  }

  /** The loop of handle_progress_event over an event list: the list with
      the fired flags set, and the newly fired events in order. */
  method FireEvents(events: seq<Event>, triggerType: string, value: ProgressValue)
    returns (marked: seq<Event>, triggered: seq<Event>)
    requires triggerType == "presents_collected" ==> value.Count?
    ensures marked == MarkFired(events, triggerType, value)
    ensures triggered == FiredBy(events, triggerType, value)
  {
    ghost var target := MarkFired(events, triggerType, value);
    marked := events;
    triggered := [];
    var i := 0;
    while i < |marked|
      invariant 0 <= i <= |marked| && |marked| == |events|
      invariant forall k :: 0 <= k < i ==> marked[k] == target[k]
      invariant forall k :: i <= k < |marked| ==> marked[k] == events[k]
      invariant triggered == FiredBy(events[..i], triggerType, value)
    {
      var ev := marked[i];
      assert events[..i + 1][..i] == events[..i];
      if !ev.fired && ev.triggerType == triggerType {
        var shouldFire := DecideFire(triggerType, ev.triggerValue, value);
        if shouldFire {
          marked := marked[i := ev.(fired := true)];
          triggered := triggered + [marked[i]];
        }
      }
      i := i + 1;
    }
    assert events[..i] == events;
    assert marked == target;
  }

  /** The powerup an event spawns: spawn_powerup with a rect and a
      non-empty type. */
  function SpawnedPowerups(ev: Event): seq<Item> {
    if ev.entry.effect == Some("spawn_powerup") && ev.entry.payload.Some? then
      var p := ev.entry.payload.value;
      if p.rect.Some? && p.ptype.Some? && p.ptype.value != "" then [Item(p.rect.value, p.ptype.value)] else []
    else []
  }

  /** The platforms an event spawns: those of a spawn_platforms payload. */
  function SpawnedPlatforms(ev: Event): seq<Rect> {
    if ev.entry.effect == Some("spawn_platforms") && ev.entry.payload.Some? then ev.entry.payload.value.platforms
    else []
  }

  /** An effect other than the two known ones spawns nothing, and no event
      spawns both. */
  lemma EffectsAreExclusive(ev: Event)
    ensures ev.entry.effect != Some("spawn_powerup") ==> SpawnedPowerups(ev) == []
    ensures ev.entry.effect != Some("spawn_platforms") ==> SpawnedPlatforms(ev) == []
    ensures SpawnedPowerups(ev) == [] || SpawnedPlatforms(ev) == []
  {
  }

  // ---------------------------------------------------------------------
  // The level manager
  // ---------------------------------------------------------------------

  /** What load_level fixes for the whole level: its name, size, ground,
      goal and number of presents. */
  datatype Layout = Layout(name: string, width: nat, height: nat, ground: Rect, goal: Rect, totalPresents: nat)

  /** The story sequences of the loaded level. The registry load_level
      also stores is a function of these (StoryRegistry), since nothing
      changes them once loaded. */
  datatype Story = Story(intro: seq<Line>, outro: seq<Line>, interludes: map<string, seq<Line>>)

  /** What play changes in a loaded level: the platform and item lists, the
      checkpoints and events with their flags, and the start and respawn
      points that checkpoints move. */
  datatype Scene = Scene(
    platforms: seq<Rect>, dynamicPlatforms: seq<Rect>,
    presents: seq<Item>, powerups: seq<Item>,
    checkpoints: seq<Checkpoint>, events: seq<Event>,
    playerStart: (int, int), respawnPoint: (int, int))

  /** The layout of level i of the campaign. */
  function LayoutOf(data: LevelData, i: nat): (l: Layout)
    ensures l.width == GetOr(data.width, BASE_WIDTH) && l.height == GetOr(data.height, BASE_HEIGHT)
    ensures data.name.None? ==> l.name == "Level " + NatToString(i + 1)
    ensures data.name.Some? ==> l.name == data.name.value
    ensures data.ground.Some? ==> l.ground == data.ground.value
    ensures data.ground.None? ==>
              l.ground.x == 0 && l.ground.Right() == l.width && l.ground.Bottom() == l.height && l.ground.h == 40
    ensures data.goal.None? ==> l.goal.w == 0 && l.goal.h == 0
    ensures l.totalPresents == |data.presents|
  {
    var w: nat := GetOr(data.width, BASE_WIDTH);
    var h: nat := GetOr(data.height, BASE_HEIGHT);
    Layout(GetOr(data.name, "Level " + NatToString(i + 1)), w, h,
           GetOr(data.ground, Rect(0, h - 40, w, 40)), GetOr(data.goal, Rect(0, 0, 0, 0)),
           |data.presents|)
  }

  /** The story of a level record. */
  function StoryFrom(data: LevelData): Story {
    var story := StoryOf(data.story);
    Story(story.intro, story.outro, InterludeMap(story.interludes))
  }

  /** The scene of a freshly loaded level: its own platforms only, each
      present with a texture, the complete powerups, and no checkpoint or
      event fired. */
  predicate SceneLoaded(sc: Scene, data: LevelData) {
    var start := GetOr(data.playerStart, (0, 0));
    && sc.platforms == data.platforms && sc.dynamicPlatforms == []
    && |sc.presents| == |data.presents|
    && (forall k :: 0 <= k < |sc.presents| ==> sc.presents[k].rect == data.presents[k] && sc.presents[k].tag in PRESENT_TEXTURES)
    && sc.powerups == KeptPowerups(data.powerups)
    && sc.checkpoints == CheckpointsFrom(data.checkpoints, start)
    && sc.events == EventsFrom(data.events)
    && sc.playerStart == start && sc.respawnPoint == start
  }

  /** The scene load_level builds from a level record. */
  method BuildScene(data: LevelData) returns (sc: Scene)
    ensures SceneLoaded(sc, data)
  {
    var start := GetOr(data.playerStart, (0, 0));
    var presents := BuildPresents(data.presents);
    var checkpoints := BuildCheckpoints(data.checkpoints, start);
    var events := ParseEvents(data.events);
    sc := Scene(data.platforms, [], presents, KeptPowerups(data.powerups), checkpoints, events, start, start);
  }

  /** The enemies of a freshly loaded level, one per record, scaled. */
  ghost predicate EnemiesLoaded(es: seq<E.Enemy>, data: LevelData, pct: int)
    reads es
  {
    && |es| == |data.enemies| && Distinct(es)
    && (forall k :: 0 <= k < |es| ==> es[k].State() == LoadedEnemy(data.enemies[k], pct))
  }

  class LevelManager {
    const settings: S.Settings
    const levels: seq<LevelData>
    var index: int
    var completed: bool
    var outroPlayed: bool
    var layout: Layout
    var story: Story
    var scene: Scene
    var enemies: seq<E.Enemy>

    /** The index stays on a level (0 without levels) and the enemies are
        distinct objects. */
    ghost predicate Valid()
      reads this`index, this`enemies
    {
      && 0 <= index && (levels != [] ==> index < |levels|)
      && Distinct(enemies)
    }

    /** Level i is loaded, freshly. */
    ghost predicate Loaded(i: int)
      requires 0 <= i < |levels|
      reads this, enemies, settings
    {
      && index == i && !completed && !outroPlayed
      && layout == LayoutOf(levels[i], i)
      && story == StoryFrom(levels[i])
      && SceneLoaded(scene, levels[i])
      && EnemiesLoaded(enemies, levels[i], settings.enemySpeedPct)
    }

    /** The index is clamped into the level list, and that level is
        loaded; without levels the manager holds an empty 800x600 world. */
    constructor (levels: seq<LevelData>, settings: S.Settings, index: int)
      ensures Valid()
      ensures this.levels == levels && this.settings == settings
      ensures levels != [] ==> Loaded(Max(0, Min(index, |levels| - 1)))
      ensures forall k :: 0 <= k < |enemies| ==> fresh(enemies[k])
      ensures levels == [] ==> this.index == 0 && !completed && enemies == [] && scene.presents == []
                               && layout == Layout("", BASE_WIDTH, BASE_HEIGHT, Rect(0, 0, BASE_WIDTH, 40), Rect(0, 0, 0, 0), 0)
    {
      this.settings := settings;
      this.levels := levels;
      this.index := if levels != [] then Max(0, Min(index, |levels| - 1)) else 0;
      completed := false;
      outroPlayed := false;
      layout := Layout("", BASE_WIDTH, BASE_HEIGHT, Rect(0, 0, BASE_WIDTH, 40), Rect(0, 0, 0, 0), 0);
      story := Story([], [], map[]);
      scene := Scene([], [], [], [], [], [], (0, 0), (0, 0));
      enemies := [];
      new;
      if levels != [] {
        LoadLevel(this.index);
      }
    }

    /** load_level: rebuild every list of the level from its record; the
        level is not completed and no checkpoint or event has fired. With
        no levels nothing happens. */
    method LoadLevel(i: int)
      requires levels != [] ==> 0 <= i < |levels|
      modifies this
      ensures levels == [] ==> unchanged(this)
      ensures levels != [] ==> index == i && Loaded(i) && Valid()
      ensures levels != [] ==> forall k :: 0 <= k < |enemies| ==> fresh(enemies[k])
    {
      if levels == [] {
        return;
      }
      var data := levels[i];
      var newScene := BuildScene(data);
      var newEnemies := BuildEnemies(data.enemies, settings.enemySpeedPct);
      index := i;
      completed := false;
      outroPlayed := false;
      layout := LayoutOf(data, i);
      story := StoryFrom(data);
      scene := newScene;
      enemies := newEnemies;
    }

    /** activate_checkpoint: trigger the first untriggered checkpoint with
        the id, move the start and the respawn point to it, and return its
        interlude when it names one that exists. */
    method ActivateCheckpoint(id: string) returns (found: Option<seq<Line>>)
      modifies this`scene
      ensures FirstUntriggered(old(scene.checkpoints), id).None? ==> found.None? && scene == old(scene)
      ensures FirstUntriggered(old(scene.checkpoints), id).Some? ==>
                var k := FirstUntriggered(old(scene.checkpoints), id).value;
                var cp := old(scene.checkpoints)[k];
                && scene == old(scene).(checkpoints := old(scene.checkpoints)[k := cp.(triggered := true)],
                                        playerStart := cp.respawn, respawnPoint := cp.respawn)
                && found == (if cp.story.Some? && cp.story.value in story.interludes
                             then Some(story.interludes[cp.story.value]) else None)
    {
      var cps := scene.checkpoints;
      var i := 0;
      while i < |cps|
        invariant 0 <= i <= |cps| && scene == old(scene)
        invariant forall j :: 0 <= j < i ==> cps[j].id != id || cps[j].triggered
      {
        var cp := cps[i];
        if cp.id == id && !cp.triggered {
          scene := scene.(checkpoints := cps[i := cp.(triggered := true)], playerStart := cp.respawn, respawnPoint := cp.respawn);
          if cp.story.Some? && cp.story.value in story.interludes {
            return Some(story.interludes[cp.story.value]);
          }
          return None;
        }
        i := i + 1;
      }
      return None;
    }

    /** checkpoint_collisions: the first untriggered checkpoint touched. */
    function CheckpointCollisions(playerRect: Rect): (c: Option<Checkpoint>)
      reads this`scene
      ensures c.Some? ==> !c.value.triggered && playerRect.Collides(c.value.rect) && c.value in scene.checkpoints
      ensures c.Some? ==> exists k :: 0 <= k < |scene.checkpoints| && scene.checkpoints[k] == c.value &&
                            (forall j :: 0 <= j < k ==> scene.checkpoints[j].triggered || !playerRect.Collides(scene.checkpoints[j].rect))
      ensures c.None? ==> forall j :: 0 <= j < |scene.checkpoints| ==>
                scene.checkpoints[j].triggered || !playerRect.Collides(scene.checkpoints[j].rect)
    {
      match FirstTouched(scene.checkpoints, playerRect)
      case None => None
      case Some(k) => Some(scene.checkpoints[k])
    }

    /** handle_progress_event: mark and return the events the value fires. */
    method HandleProgressEvent(triggerType: string, value: ProgressValue) returns (triggered: seq<Event>)
      requires triggerType == "presents_collected" ==> value.Count?
      modifies this`scene
      ensures scene == old(scene).(events := MarkFired(old(scene.events), triggerType, value))
      ensures triggered == FiredBy(old(scene.events), triggerType, value)
    {
      var events;
      events, triggered := FireEvents(scene.events, triggerType, value);
      scene := scene.(events := events);
    }

    /** apply_event_effect: append what the event spawns; an unknown effect
        changes nothing. */
    method ApplyEventEffect(ev: Event)
      modifies this`scene
      ensures scene == old(scene).(powerups := old(scene.powerups) + SpawnedPowerups(ev),
                                   platforms := old(scene.platforms) + SpawnedPlatforms(ev),
                                   dynamicPlatforms := old(scene.dynamicPlatforms) + SpawnedPlatforms(ev))
    {
      var effect := ev.entry.effect;
      if effect == Some("spawn_powerup") {
        if ev.entry.payload.Some? {
          var p := ev.entry.payload.value;
          if p.rect.Some? && p.ptype.Some? && p.ptype.value != "" {
            scene := scene.(powerups := scene.powerups + [Item(p.rect.value, p.ptype.value)]);
          }
        }
      } else if effect == Some("spawn_platforms") {
        var plats := if ev.entry.payload.Some? then ev.entry.payload.value.platforms else [];
        var platforms := scene.platforms;
        var dynamicPlatforms := scene.dynamicPlatforms;
        var i := 0;
        while i < |plats|
          invariant 0 <= i <= |plats|
          invariant platforms == old(scene.platforms) + plats[..i]
          invariant dynamicPlatforms == old(scene.dynamicPlatforms) + plats[..i]
        {
          platforms := platforms + [plats[i]];
          dynamicPlatforms := dynamicPlatforms + [plats[i]];
          assert plats[..i + 1] == plats[..i] + [plats[i]];
          i := i + 1;
        }
        assert plats[..i] == plats;
        scene := scene.(platforms := platforms, dynamicPlatforms := dynamicPlatforms);
      }
    }

    /** get_story_sequence: an interlude by id, else the intro or outro,
        else nothing. */
    function GetStorySequence(key: string): (lines: seq<Line>)
      reads this
      ensures key in story.interludes ==> lines == story.interludes[key]
      ensures key !in story.interludes && key == "intro" ==> lines == story.intro
      ensures key !in story.interludes && key == "outro" ==> lines == story.outro
      ensures key !in story.interludes && key != "intro" && key != "outro" ==> lines == []
    {
      var registry := StoryRegistry(story.intro, story.outro, story.interludes);
      if key in registry then registry[key] else []
    }

    /** next_level: advance and load when a next level exists. */
    method NextLevel() returns (advanced: bool)
      requires Valid()
      modifies this
      ensures advanced <==> old(index) + 1 < |levels|
      ensures advanced ==> index == old(index) + 1 && 0 <= index < |levels| && Loaded(index) && Valid()
      ensures advanced ==> forall k :: 0 <= k < |enemies| ==> fresh(enemies[k])
      ensures !advanced ==> unchanged(this)
    {
      if index + 1 < |levels| {
        LoadLevel(index + 1);
        return true;
      }
      return false;
    }
  }

  /** A freshly loaded level's present count is the number of presents
      it holds. */
  lemma LoadedCountsPresents(m: LevelManager, i: int)
    requires 0 <= i < |m.levels| && m.Loaded(i)
    ensures m.layout.totalPresents == |m.scene.presents|
  {
  }

  /** The name load_level gives a level is the one the selector lists. */
  lemma LoadedNameIsListed(m: LevelManager, i: int)
    requires 0 <= i < |m.levels| && m.Loaded(i)
    ensures m.layout.name == LevelNames(m.levels)[i]
  {
  }
}
