/**
 * The front end's translation lookup: a dotted key is walked through the
 * current locale's nested message catalogue, falling back to the English
 * catalogue on the first missing segment and to the key itself when no
 * string is found; plus the locale switch and its restoration from a saved
 * setting.
 */
module I18n {
  import opened Common
  import opened Text

  datatype Locale = En | Zh

  /** A value of a message catalogue: a string, a nested object, or any other JSON scalar. */
  datatype Message = Str(text: string) | Obj(entries: map<string, Message>) | Scalar

  /** One step of the walk: `value && typeof value === 'object' && k in value`, then value[k]. */
  function Step(value: Message, k: string): Option<Message> {
    if value.Obj? && k in value.entries then Some(value.entries[k]) else None
  }

  /** The value reached by following keys from m, or None at the first segment that is missing. */
  function Walk(m: Message, keys: seq<string>): Option<Message>
    decreases |keys|
  {
    if keys == [] then Some(m)
    else match Walk(m, keys[..|keys| - 1])
      case None => None
      case Some(v) => Step(v, keys[|keys| - 1])
  }

  /**
   * t(key): the string at the key's path in the current catalogue; when the
   * path breaks off there, the string at that path in English; otherwise
   * the key itself.
   */
  function Translate(current: Message, en: Message, key: string): string {
    var keys := Split(key, '.');
    var found := if Walk(current, keys).Some? then Walk(current, keys) else Walk(en, keys);
    if found.Some? && found.value.Str? then found.value.text else key
  }

  /** Once the walk breaks off, it stays broken whatever keys follow. */
  lemma {:induction false} WalkMissSticks(m: Message, keys: seq<string>, i: nat)
    requires i <= |keys| && Walk(m, keys[..i]).None?
    ensures Walk(m, keys).None?
    decreases |keys| - i
  {
    if i < |keys| {
      assert keys[..i + 1][..i] == keys[..i];
      WalkMissSticks(m, keys, i + 1);
    } else {
      assert keys[..i] == keys;
    }
  }

  /** A path found in the current catalogue ending in a string yields that string. */
  lemma TranslateFound(current: Message, en: Message, key: string, s: string)
    requires Walk(current, Split(key, '.')) == Some(Str(s))
    ensures Translate(current, en, key) == s
  {
  }

  /** A path missing from the current catalogue is looked up in English, whatever the current catalogue holds. */
  lemma TranslateFallsBack(current: Message, en: Message, key: string)
    requires Walk(current, Split(key, '.')).None?
    ensures Translate(current, en, key) == Translate(en, en, key)
  {
  }

  /** A path missing in both catalogues, or ending in a non-string in English, yields the key. */
  lemma TranslateMissing(current: Message, en: Message, key: string)
    requires Walk(current, Split(key, '.')).None?
    requires Walk(en, Split(key, '.')).None? || !Walk(en, Split(key, '.')).value.Str?
    ensures Translate(current, en, key) == key
  {
  }

  /**
   * A path that resolves in the current catalogue to something other than a
   * string yields the key, even when English has a string there.
   */
  lemma TranslateNoFallbackOnNonString(current: Message, en: Message, key: string)
    requires Walk(current, Split(key, '.')).Some? && !Walk(current, Split(key, '.')).value.Str?
    ensures Translate(current, en, key) == key
  {
  }

  /** t returns the key or a string stored in one of the two catalogues. */
  lemma TranslateSource(current: Message, en: Message, key: string)
    ensures var r := Translate(current, en, key);
      || r == key
      || Walk(current, Split(key, '.')) == Some(Str(r))
      || (Walk(current, Split(key, '.')).None? && Walk(en, Split(key, '.')) == Some(Str(r)))
  {
  }

  /** A catalogue whose segments contain no dot answers its own dotted paths. */
  lemma TranslatePath(current: Message, en: Message, path: seq<string>, s: string)
    requires |path| >= 1 && forall k :: 0 <= k < |path| ==> '.' !in path[k]
    requires Walk(current, path) == Some(Str(s))
    ensures Translate(current, en, Join(path, '.')) == s
  {
    SplitJoin(path, '.');
  }

  /** The locale state: the current locale and the two catalogues. */
  class Translator {
    var currentLocale: Locale
    const en: Message
    const zh: Message

    constructor (en: Message, zh: Message)
      ensures currentLocale == En && this.en == en && this.zh == zh
    {
      currentLocale := En;
      this.en := en;
      this.zh := zh;
    }

    function Messages(locale: Locale): Message
      reads this
    {
      match locale
      case En => en
      case Zh => zh
    }

    /** setLocale: the locale changes; saving it to storage is not modelled. */
    method SetLocale(newLocale: Locale)
      modifies this
      ensures currentLocale == newLocale
    {
      currentLocale := newLocale;
    }

    /** initializeLocale: saved is what storage holds, None when it holds nothing or cannot be read. */
    method InitializeLocale(saved: Option<string>)
      modifies this
      ensures saved == Some("en") ==> currentLocale == En
      ensures saved == Some("zh") ==> currentLocale == Zh
      ensures saved != Some("en") && saved != Some("zh") ==> currentLocale == old(currentLocale)
    {
      if saved.Some? && saved.value != "" && (saved.value == "en" || saved.value == "zh") {
        currentLocale := if saved.value == "en" then En else Zh;
      }
    }

    method T(key: string) returns (r: string)
      ensures r == Translate(Messages(currentLocale), en, key)
    {
      var keys := Split(key, '.');
      var value := Messages(currentLocale);
      for i := 0 to |keys|
        invariant Walk(Messages(currentLocale), keys[..i]) == Some(value)
      {
        var k := keys[i];
        assert keys[..i + 1][..i] == keys[..i];
        if value.Obj? && k in value.entries {
          value := value.entries[k];
        } else {
          WalkMissSticks(Messages(currentLocale), keys, i + 1);
          value := en;
          for j := 0 to |keys|
            invariant Walk(en, keys[..j]) == Some(value)
          {
            var fallbackKey := keys[j];
            assert keys[..j + 1][..j] == keys[..j];
            if value.Obj? && fallbackKey in value.entries {
              value := value.entries[fallbackKey];
            } else {
              WalkMissSticks(en, keys, j + 1);
              return key;
            }
          }
          assert keys[..|keys|] == keys;
          break;
        }
      }
      assert keys[..|keys|] == keys;
      if value.Str? {
        return value.text;
      }
      return key;
    }
  }
}
