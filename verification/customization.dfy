/**
 * The customization store: the app theme, the timer sound and the saved
 * session templates, kept in the "app_customization" preferences, plus the
 * fixed preset templates and sounds. A template list is stored as JSON; the
 * model keeps the list itself.
 */
module Customization {
  import opened Common

  datatype AppTheme = LIGHT | DARK | SYSTEM | AMOLED | BLUE_LIGHT | NATURE | SPACE

  /** The enum constant's `name`. */
  function ThemeName(t: AppTheme): string
  {
    match t
    case LIGHT => "LIGHT"
    case DARK => "DARK"
    case SYSTEM => "SYSTEM"
    case AMOLED => "AMOLED"
    case BLUE_LIGHT => "BLUE_LIGHT"
    case NATURE => "NATURE"
    case SPACE => "SPACE"
  }

  /** `AppTheme.valueOf(name)`: the constant with that exact name; none (the exception) otherwise. */
  function ThemeNamed(name: string): (r: Option<AppTheme>)
    ensures r.Some? ==> ThemeName(r.value) == name
    ensures r.None? ==> forall t :: ThemeName(t) != name
  {
    if name == "LIGHT" then Some(LIGHT)
    else if name == "DARK" then Some(DARK)
    else if name == "SYSTEM" then Some(SYSTEM)
    else if name == "AMOLED" then Some(AMOLED)
    else if name == "BLUE_LIGHT" then Some(BLUE_LIGHT)
    else if name == "NATURE" then Some(NATURE)
    else if name == "SPACE" then Some(SPACE)
    else None
  }

  /** A theme's name reads back as that theme. */
  lemma ThemeNameRoundTrip(t: AppTheme)
    ensures ThemeNamed(ThemeName(t)) == Some(t)
  {
  }

  /** `getCurrentTheme` over the stored theme name: SYSTEM when none is stored or the name is no theme. */
  function CurrentThemeOf(stored: Option<string>): (r: AppTheme)
    ensures stored.None? ==> r == SYSTEM
    ensures stored.Some? && ThemeNamed(stored.value).None? ==> r == SYSTEM
    ensures stored.Some? && ThemeNamed(stored.value).Some? ==> ThemeName(r) == stored.value
  {
    var name := OrElse(stored, ThemeName(SYSTEM));
    OrElse(ThemeNamed(name), SYSTEM)
  }

  /** `SessionTemplate`; `tags` is the list of tag texts. */
  datatype SessionTemplate = SessionTemplate(
    templateId: string, name: string, duration: int, goalName: string, sound: string,
    theme: AppTheme, description: string, tags: seq<string>, createdAt: int)

  /** `SoundProfile`; the raw resource is named instead of numbered. */
  datatype SoundProfile = SoundProfile(soundId: string, name: string, resource: string, category: string, volume: int)

  const DEFAULT_SOUND := SoundProfile("default", "Default Bell", "timersound", "classic", 80)

  /** `getAvailableSounds`. */
  const AVAILABLE_SOUNDS: seq<SoundProfile> := [
    DEFAULT_SOUND,
    SoundProfile("nature", "Forest Birds", "birdsound", "nature", 70),
    SoundProfile("ocean", "Ocean Waves", "oceansound", "nature", 75),
    SoundProfile("bell", "Crystal Bell", "crystalsound", "classic", 80),
    SoundProfile("gong", "Meditation Gong", "meditationsound", "meditation", 85),
    SoundProfile("rain", "Gentle Rain", "rainsound", "ambient", 65)
  ]

  const MINUTE_MILLIS: int := 60 * 1000

  /** `getPresetTemplates`; a preset's `createdAt` is the time the list is built, `now`. */
  function PresetTemplates(now: int): seq<SessionTemplate>
  {
    [ SessionTemplate("pomodoro", "Pomodoro", 25 * MINUTE_MILLIS, "Deep Work", "bell", LIGHT,
        "Classic Pomodoro technique for focused work sessions", ["work", "productivity", "pomodoro"], now),
      SessionTemplate("meditation", "Meditation", 15 * MINUTE_MILLIS, "Mindfulness", "gong", NATURE,
        "Mindfulness meditation session", ["meditation", "mindfulness", "relaxation"], now),
      SessionTemplate("study", "Study Session", 45 * MINUTE_MILLIS, "Learning", "rain", BLUE_LIGHT,
        "Extended study session with ambient background", ["study", "learning", "academic"], now),
      SessionTemplate("quick_focus", "Quick Focus", 10 * MINUTE_MILLIS, "Quick Task", "default", SYSTEM,
        "Short burst of focused work", ["quick", "focus", "task"], now) ]
  }

  /** `find { it.templateId == id }`: the first template with the id, or none. */
  function FindTemplate(templates: seq<SessionTemplate>, id: string): (r: Option<SessionTemplate>)
    ensures r.None? <==> forall t :: t in templates ==> t.templateId != id
    ensures r.Some? ==> r.value in templates && r.value.templateId == id
  {
    if templates == [] then None
    else if templates[0].templateId == id then Some(templates[0])
    else FindTemplate(templates[1..], id)
  }

  /** The template found is the first one with the id: every template before it has another id. */
  lemma {:induction false} FindTemplateFirst(templates: seq<SessionTemplate>, id: string)
    requires FindTemplate(templates, id).Some?
    ensures exists i :: (0 <= i < |templates| && templates[i] == FindTemplate(templates, id).value
      && (forall j :: 0 <= j < i ==> templates[j].templateId != id))
  {
    if templates[0].templateId != id {
      FindTemplateFirst(templates[1..], id);
      var i :| 0 <= i < |templates| - 1 && templates[1..][i] == FindTemplate(templates, id).value
        && (forall j :: 0 <= j < i ==> templates[1..][j].templateId != id);
      assert templates[i + 1] == FindTemplate(templates, id).value;
    } else {
      assert templates[0] == FindTemplate(templates, id).value;
    }
  }

  const PRESET_IDS: seq<string> := ["pomodoro", "meditation", "study", "quick_focus"]
  const PRESET_MINUTES: seq<int> := [25, 15, 45, 10]

  /** The `k`-th preset is what its id finds, and it lasts 25, 15, 45 or 10 minutes. */
  lemma PresetDurations(now: int, k: nat)
    requires k < 4
    ensures FindTemplate(PresetTemplates(now), PRESET_IDS[k]) == Some(PresetTemplates(now)[k])
    ensures PresetTemplates(now)[k].duration == PRESET_MINUTES[k] * MINUTE_MILLIS
  {
    var p := PresetTemplates(now);
    var id := PRESET_IDS[k];
    if k > 0 {
      assert p[0].templateId != id;
      if k > 1 {
        assert p[1].templateId != id;
        if k > 2 {
          assert p[2].templateId != id;
          assert p[1..][1..][1..][0] == p[3];
        }
      }
    }
  }

  /** `find { it.soundId == id }` over a list of sounds. */
  function FindSound(sounds: seq<SoundProfile>, soundId: string): (r: Option<SoundProfile>)
    ensures r.None? <==> forall s :: s in sounds ==> s.soundId != soundId
    ensures r.Some? ==> r.value in sounds && r.value.soundId == soundId
  {
    if sounds == [] then None
    else if sounds[0].soundId == soundId then Some(sounds[0])
    else FindSound(sounds[1..], soundId)
  }

  /** The sound with the id among the available ones, or the default bell. */
  function SoundFor(soundId: string): (r: SoundProfile)
    ensures r.soundId == soundId || (r == DEFAULT_SOUND && forall s :: s in AVAILABLE_SOUNDS ==> s.soundId != soundId)
    ensures FindSound(AVAILABLE_SOUNDS, soundId).Some? ==> r == FindSound(AVAILABLE_SOUNDS, soundId).value
    ensures FindSound(AVAILABLE_SOUNDS, soundId).None? ==> r == DEFAULT_SOUND
  {
    OrElse(FindSound(AVAILABLE_SOUNDS, soundId), DEFAULT_SOUND)
  }

  /** Every preset names a sound that is available, so applying it selects exactly that sound. */
  lemma PresetSoundsAvailable(now: int)
    ensures forall t :: t in PresetTemplates(now) ==> SoundFor(t.sound).soundId == t.sound
  {
    var p := PresetTemplates(now);
    assert AVAILABLE_SOUNDS[3].soundId == "bell" && AVAILABLE_SOUNDS[4].soundId == "gong";
    assert AVAILABLE_SOUNDS[5].soundId == "rain" && AVAILABLE_SOUNDS[0].soundId == "default";
    forall t | t in p
      ensures SoundFor(t.sound).soundId == t.sound
    {
      assert t == p[0] || t == p[1] || t == p[2] || t == p[3];
    }
  }

  /** The stored timer-sound entry: absent, a readable profile, or text the parser rejects. */
  datatype StoredSound = NoSound | Readable(profile: SoundProfile) | Unreadable

  /** `getTimerSound`: the stored profile, or the default bell when there is none or it cannot be read. */
  function TimerSoundOf(stored: StoredSound): (r: SoundProfile)
    ensures stored.Readable? ==> r == stored.profile
    ensures !stored.Readable? ==> r == DEFAULT_SOUND
  {
    if stored.Readable? then stored.profile else DEFAULT_SOUND
  }

  /** The id a template with no id is saved under: "template_" and the current time. */
  function GeneratedId(now: int): (id: string)
    ensures id != []
  {
    "template_" + IntToString(now)
  }

  /** Templates saved at different times get different generated ids. */
  lemma {:induction false} GeneratedIdsDiffer(a: int, b: int)
    requires a != b
    ensures GeneratedId(a) != GeneratedId(b)
  {
    if GeneratedId(a) == GeneratedId(b) {
      assert GeneratedId(a)[9..] == IntToString(a) && GeneratedId(b)[9..] == IntToString(b);
      IntToStringInjective(a, b);
    }
  }

  /** The template as `saveSessionTemplate` stores it: its own id, or a generated one when it has none. */
  function WithId(template: SessionTemplate, now: int): (r: SessionTemplate)
    ensures r.templateId != []
    ensures template.templateId != [] ==> r == template
    ensures template.templateId == [] ==> r == template.(templateId := GeneratedId(now))
  {
    if template.templateId == [] then template.(templateId := GeneratedId(now)) else template
  }

  /** The templates whose id is not `id`, in order: `removeAll`/`filter` on the id. */
  function Without(templates: seq<SessionTemplate>, id: string): (r: seq<SessionTemplate>)
    ensures |r| <= |templates|
    ensures forall t :: t in r <==> t in templates && t.templateId != id
  {
    if templates == [] then []
    else (if templates[0].templateId != id then [templates[0]] else []) + Without(templates[1..], id)
  }

  lemma {:induction false} WithoutAppend(a: seq<SessionTemplate>, b: seq<SessionTemplate>, id: string)
    ensures Without(a + b, id) == Without(a, id) + Without(b, id)
    decreases |a|
  {
    if a == [] {
      assert a + b == b;
    } else {
      assert (a + b)[1..] == a[1..] + b;
      WithoutAppend(a[1..], b, id);
    }
  }

  /** Removing an id that no template carries changes nothing. */
  lemma {:induction false} WithoutAbsent(templates: seq<SessionTemplate>, id: string)
    requires forall t :: t in templates ==> t.templateId != id
    ensures Without(templates, id) == templates
    decreases |templates|
  {
    if templates != [] {
      assert templates[0] in templates;
      assert forall t :: t in templates[1..] ==> t in templates;
      WithoutAbsent(templates[1..], id);
    }
  }

  /** The list after the upsert: every template with the id removed, the new one added last. */
  function Upsert(templates: seq<SessionTemplate>, t: SessionTemplate): seq<SessionTemplate>
  {
    Without(templates, t.templateId) + [t]
  }

  /**
   * After an upsert exactly one template has the id and it is the last one;
   * the templates with other ids are kept, in their order.
   */
  lemma {:induction false} UpsertPlacesLast(templates: seq<SessionTemplate>, t: SessionTemplate)
    ensures var r := Upsert(templates, t);
      r[|r| - 1] == t
      && (forall i :: 0 <= i < |r| - 1 ==> r[i].templateId != t.templateId)
      && Without(r, t.templateId) == Without(templates, t.templateId)
  {
    var kept := Without(templates, t.templateId);
    var r := Upsert(templates, t);
    assert forall i :: 0 <= i < |r| - 1 ==> r[i] in kept;
    WithoutAppend(kept, [t], t.templateId);
    WithoutAbsent(kept, t.templateId);
    assert Without([t], t.templateId) == [];
  }

  /** Looking a template up after removing an id finds nothing under that id and the same template under any other. */
  lemma {:induction false} FindAfterRemoval(templates: seq<SessionTemplate>, removed: string, id: string)
    ensures FindTemplate(Without(templates, removed), id)
      == if id == removed then None else FindTemplate(templates, id)
    decreases |templates|
  {
    if templates != [] && id != removed {
      var h, rest := templates[0], templates[1..];
      var kept := Without(rest, removed);
      FindAfterRemoval(rest, removed, id);
      if h.templateId != removed {
        assert Without(templates, removed) == [h] + kept;
        assert ([h] + kept)[1..] == kept;
      } else {
        assert Without(templates, removed) == kept;
      }
    }
  }

  /** After an upsert the id finds the new template and every other id finds what it found before. */
  lemma {:induction false} FindAfterUpsert(templates: seq<SessionTemplate>, t: SessionTemplate, id: string)
    ensures FindTemplate(Upsert(templates, t), id)
      == if id == t.templateId then Some(t) else FindTemplate(templates, id)
  {
    var kept := Without(templates, t.templateId);
    FindAfterRemoval(templates, t.templateId, id);
    FindAppend(kept, [t], id);
  }

  /** Searching a concatenation: the first part, then the second. */
  lemma {:induction false} FindAppend(a: seq<SessionTemplate>, b: seq<SessionTemplate>, id: string)
    ensures FindTemplate(a + b, id) == if FindTemplate(a, id).Some? then FindTemplate(a, id) else FindTemplate(b, id)
    decreases |a|
  {
    if a == [] {
      assert a + b == b;
    } else {
      assert (a + b)[1..] == a[1..] + b;
      FindAppend(a[1..], b, id);
    }
  }

  /** `applyTemplate`'s choice: a saved template with the id, else the preset with the id. */
  function TemplateToApply(saved: seq<SessionTemplate>, id: string, now: int): (r: Option<SessionTemplate>)
    ensures FindTemplate(saved, id).Some? ==> r == FindTemplate(saved, id)
    ensures FindTemplate(saved, id).None? ==> r == FindTemplate(PresetTemplates(now), id)
  {
    if FindTemplate(saved, id).Some? then FindTemplate(saved, id) else FindTemplate(PresetTemplates(now), id)
  }

  /** The preferences the customization store keeps. */
  class CustomizationManager {
    /** The stored theme name, if any. */
    var themeName: Option<string>
    var timerSound: StoredSound
    /** The saved template list, in stored order. */
    var templates: seq<SessionTemplate>

    /** Empty preferences. */
    constructor ()
      ensures themeName == None && timerSound == NoSound && templates == []
    {
      themeName := None;
      timerSound := NoSound;
      templates := [];
    }

    /** `getCurrentTheme`: the theme whose name is stored; SYSTEM when none is stored or the name is unknown. */
    function CurrentTheme(): (r: AppTheme)
      reads this`themeName
      ensures themeName.Some? && ThemeNamed(themeName.value).Some? ==> ThemeName(r) == themeName.value
      ensures themeName.None? || ThemeNamed(themeName.value).None? ==> r == SYSTEM
    {
      CurrentThemeOf(themeName)
    }

    /** `setAppTheme`: stores the theme's name, which then reads back as that theme. */
    method SetAppTheme(theme: AppTheme)
      modifies this`themeName
      ensures themeName == Some(ThemeName(theme))
      ensures CurrentTheme() == theme
    {
      themeName := Some(ThemeName(theme));
      ThemeNameRoundTrip(theme);
    }

    /** `getTimerSound`: the stored profile; the default bell when none is stored or it cannot be read. */
    function TimerSound(): (r: SoundProfile)
      reads this`timerSound
      ensures timerSound.Readable? ==> r == timerSound.profile
      ensures !timerSound.Readable? ==> r == DEFAULT_SOUND
    {
      TimerSoundOf(timerSound)
    }

    /** `setTimerSound`: the profile is stored and reads back unchanged. */
    method SetTimerSound(profile: SoundProfile)
      modifies this`timerSound
      ensures timerSound == Readable(profile) && TimerSound() == profile
    {
      timerSound := Readable(profile);
    }

    /** `getSessionTemplate`: a saved template with the id; none when no saved template has it. */
    function SessionTemplateWithId(id: string): (r: Option<SessionTemplate>)
      reads this`templates
      ensures r.None? <==> forall t :: t in templates ==> t.templateId != id
      ensures r.Some? ==> r.value in templates && r.value.templateId == id
    {
      FindTemplate(templates, id)
    }

    /**
     * `saveSessionTemplate`: the template gets an id if it has none, every
     * stored template with that id is removed and the template is added
     * last. It then is what the id finds; other ids find what they found.
     */
    method SaveSessionTemplate(template: SessionTemplate, now: int) returns (ok: bool)
      modifies this`templates
      ensures ok
      ensures templates == Upsert(old(templates), WithId(template, now))
      ensures SessionTemplateWithId(WithId(template, now).templateId) == Some(WithId(template, now))
      ensures forall id :: id != WithId(template, now).templateId ==> SessionTemplateWithId(id) == old(SessionTemplateWithId(id))
    {
      var list := templates;
      var templateWithId := if template.templateId == [] then template.(templateId := GeneratedId(now)) else template;
      list := Without(list, templateWithId.templateId);
      list := list + [templateWithId];
      forall id {
        FindAfterUpsert(templates, templateWithId, id);
      }
      templates := list;
      ok := true;
    }

    /** `deleteSessionTemplate`: every template with the id goes; the rest stay, in order. */
    method DeleteSessionTemplate(id: string) returns (ok: bool)
      modifies this`templates
      ensures ok
      ensures templates == Without(old(templates), id)
      ensures SessionTemplateWithId(id) == None
      ensures forall other :: other != id ==> SessionTemplateWithId(other) == old(SessionTemplateWithId(other))
    {
      forall other {
        FindAfterRemoval(templates, id, other);
      }
      templates := Without(templates, id);
      ok := true;
    }

    /** The `let` block of `applyTemplate`: the template's theme, and its sound or the default bell. */
    method UseTemplate(t: SessionTemplate)
      modifies this`themeName, this`timerSound
      ensures CurrentTheme() == t.theme && timerSound == Readable(SoundFor(t.sound))
    {
      SetAppTheme(t.theme);
      SetTimerSound(SoundFor(t.sound));
    }

    /**
     * `applyTemplate`: a saved template wins over a preset with the same id;
     * the chosen template's theme is set and its sound, or the default bell
     * when no available sound has that id. With no template nothing changes.
     */
    method ApplyTemplate(id: string, now: int) returns (r: Option<SessionTemplate>)
      modifies this`themeName, this`timerSound
      ensures r == TemplateToApply(templates, id, now)
      ensures r.Some? ==> CurrentTheme() == r.value.theme && timerSound == Readable(SoundFor(r.value.sound))
      ensures r.None? ==> themeName == old(themeName) && timerSound == old(timerSound)
    {
      r := TemplateToApply(templates, id, now);
      if r.Some? {
        UseTemplate(r.value);
      }
    }
  }
}
