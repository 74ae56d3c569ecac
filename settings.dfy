/** Player settings (settings.py): the difficulty presets and the key
    bindings, as names. Multipliers are integer percentages. */
module Settings {
  import opened Common

  /** What a difficulty supplies: starting lives, the enemy speed multiplier
      and the powerup duration multiplier. */
  datatype Preset = Preset(lives: int, enemySpeedPct: int, powerupPct: int)

  const DIFFICULTY_PRESETS: map<string, Preset> := map[
    "Easy" := Preset(5, 85, 125),
    "Normal" := Preset(3, 100, 100),
    "Hard" := Preset(2, 125, 85)
  ]

  /** The actions that can be bound to keys, with their default key names. */
  const DEFAULT_CONTROLS: map<string, string> := map[
    "left" := "LEFT",
    "right" := "RIGHT",
    "jump" := "SPACE",
    "pause" := "ESCAPE"
  ]

  /** The preset of a difficulty name; an unknown name gets Normal's. */
  function PresetFor(difficulty: string): (p: Preset)
    ensures difficulty == "Easy" ==> p.lives == 5 && p.enemySpeedPct == 85 && p.powerupPct == 125
    ensures difficulty == "Hard" ==> p.lives == 2 && p.enemySpeedPct == 125 && p.powerupPct == 85
    ensures difficulty != "Easy" && difficulty != "Hard" ==> p == Preset(3, 100, 100)
    ensures p.lives >= 2 && p.enemySpeedPct > 0 && p.powerupPct > 0
  {
    if difficulty in DIFFICULTY_PRESETS then DIFFICULTY_PRESETS[difficulty]
    else DIFFICULTY_PRESETS["Normal"]
  }

  /** The key name get_key looks up for an action: the bound name, else the
      default one. The default is looked up first whatever the bindings say,
      so an action without a default raises KeyError (None here). */
  function KeyName(controls: map<string, string>, action: string): (k: Option<string>)
    ensures k.Some? <==> action in DEFAULT_CONTROLS
    ensures k.Some? && action in controls ==> k.value == controls[action]
    ensures k.Some? && action !in controls ==> k.value == DEFAULT_CONTROLS[action]
  {
    if action !in DEFAULT_CONTROLS then None
    else if action in controls then Some(controls[action])
    else Some(DEFAULT_CONTROLS[action])
  }

  class Settings {
    var difficulty: string
    var controls: map<string, string>
    var lives: int
    var enemySpeedPct: int
    var powerupPct: int

    /** The derived values are those of the current difficulty's preset. */
    ghost predicate Valid()
      reads this
    {
      Preset(lives, enemySpeedPct, powerupPct) == PresetFor(difficulty)
    }

    /** Construction (including __post_init__): missing bindings become a
        copy of the defaults, and the difficulty is always applied. */
    constructor (difficulty: string, controls: Option<map<string, string>>)
      ensures Valid()
      ensures this.difficulty == difficulty
      ensures this.controls == if controls.Some? then controls.value else DEFAULT_CONTROLS
    {
      this.difficulty := difficulty;
      this.controls := if controls.Some? then controls.value else DEFAULT_CONTROLS;
      lives := 3;
      enemySpeedPct := 100;
      powerupPct := 100;
      new;
      ApplyDifficulty();
    }

    /** Sets the derived values from the preset of the current difficulty;
        difficulty and bindings are untouched, so a second call changes
        nothing. */
    method ApplyDifficulty()
      modifies this
      ensures Valid()
      ensures difficulty == old(difficulty) && controls == old(controls)
    {
      var p := PresetFor(difficulty);
      lives := p.lives;
      enemySpeedPct := p.enemySpeedPct;
      powerupPct := p.powerupPct;
    }

    /** The key name bound to an action (the lookup inside get_key). */
    function KeyFor(action: string): Option<string>
      reads this
    {
      KeyName(controls, action)
    }
  }
}
