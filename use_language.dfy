/** The language preference shared by every component: one module-level
    current language, a list of listeners (one per mounted hook), the value
    persisted in the browser's storage, and each hook's own state. */
module UseLanguage {
  import opened Js

  /** Identifies one mounted hook and the listener closure it registered. */
  type HookId = nat

  /** The storage key the preference is persisted under. */
  const StorageKey: string := "language"

  /** The language everything starts from. */
  const DefaultLanguage: string := "EN"

  /** One entry of `/api/language/`. */
  datatype LanguageInfo = LanguageInfo(shortCode: string, isDefault: bool)

  /** `result.data`: an array of entries, or anything else. */
  datatype LanguagesData = Listed(entries: seq<LanguageInfo>) | NotListed

  /** An answer (its `success` flag and data), or a request that threw. */
  datatype LanguagesAnswer = Answer(success: bool, data: LanguagesData) | Thrown

  /** One hook's own state: `language` and `availableLanguages`. */
  datatype Hook = Hook(language: string, available: seq<LanguageInfo>)

  /** `localStorage.getItem("language")`. */
  function Saved(storage: map<string, string>): (r: Option<string>)
    ensures r.Some? <==> StorageKey in storage
    ensures r.Some? ==> r.value == storage[StorageKey]
  {
    if StorageKey in storage then Some(storage[StorageKey]) else None
  }

  /** `entries.find(l => l.isDefault)`, as the position it is found at. */
  function FindDefault(entries: seq<LanguageInfo>): (r: Option<nat>)
    ensures r.Some? ==>
      r.value < |entries| && entries[r.value].isDefault &&
      forall j :: 0 <= j < r.value ==> !entries[j].isDefault
    ensures r.None? ==> forall j :: 0 <= j < |entries| ==> !entries[j].isDefault
    decreases |entries|
  {
    if entries == [] then None
    else if entries[0].isDefault then Some(0)
    else
      match FindDefault(entries[1..])
      case None => None
      case Some(i) => Some(i + 1)
  }

  /** The list an answer makes available: only a successful answer whose
      data is an array counts. */
  function Listing(answer: LanguagesAnswer): (r: Option<seq<LanguageInfo>>)
    ensures r.Some? <==> answer.Answer? && answer.success && answer.data.Listed?
    ensures r.Some? ==> r.value == answer.data.entries
  {
    if answer.Answer? && answer.success && answer.data.Listed? then Some(answer.data.entries) else None
  }

  /** The short code of the first entry marked default in a usable answer. */
  function DefaultCode(answer: LanguagesAnswer): (r: Option<string>)
    ensures r.Some? ==>
      (Listing(answer).Some? &&
       exists i :: 0 <= i < |answer.data.entries| && answer.data.entries[i].isDefault &&
         answer.data.entries[i].shortCode == r.value &&
         forall j :: 0 <= j < i ==> !answer.data.entries[j].isDefault)
    ensures r.None? ==>
      (Listing(answer).None? ||
       forall j :: 0 <= j < |answer.data.entries| ==> !answer.data.entries[j].isDefault)
  {
    match Listing(answer)
    case None => None
    case Some(entries) =>
      match FindDefault(entries)
      case None => None
      case Some(i) => Some(entries[i].shortCode)
  }

  /** The language a freshly mounted hook ends up with once the languages
      answer is in: a saved (non-empty) preference wins; otherwise the first
      API entry marked default; otherwise `'EN'`. */
  function StartingLanguage(saved: Option<string>, answer: LanguagesAnswer): (r: string)
    ensures TruthyOpt(saved) ==> r == saved.value
    ensures !TruthyOpt(saved) && DefaultCode(answer).Some? ==> r == DefaultCode(answer).value
    ensures !TruthyOpt(saved) && DefaultCode(answer).None? ==> r == DefaultLanguage
  {
    if TruthyOpt(saved) then saved.value
    else match DefaultCode(answer)
      case Some(code) => code
      case None => DefaultLanguage
  }

  /** `listeners.filter(l => l !== id)`. */
  function Without(listeners: seq<HookId>, id: HookId): (r: seq<HookId>)
    ensures |r| <= |listeners|
    ensures forall x :: x in r <==> x in listeners && x != id
    decreases |listeners|
  {
    if listeners == [] then []
    else if listeners[0] == id then Without(listeners[1..], id)
    else [listeners[0]] + Without(listeners[1..], id)
  }

  /** Removal works listener by listener, so the others keep their order. */
  lemma {:induction false} WithoutAppend(a: seq<HookId>, b: seq<HookId>, id: HookId)
    ensures Without(a + b, id) == Without(a, id) + Without(b, id)
    decreases |a|
  {
    if a == [] {
      assert a + b == b;
    } else {
      assert (a + b)[1..] == a[1..] + b;
      WithoutAppend(a[1..], b, id);
    }
  }

  /** Removing a listener that is not registered changes nothing. */
  lemma {:induction false} WithoutAbsent(listeners: seq<HookId>, id: HookId)
    requires id !in listeners
    ensures Without(listeners, id) == listeners
    decreases |listeners|
  {
    if listeners != [] {
      WithoutAbsent(listeners[1..], id);
    }
  }

  /** Unsubscribing undoes subscribing a new listener. */
  lemma SubscribeThenUnsubscribe(listeners: seq<HookId>, id: HookId)
    requires id !in listeners
    ensures Without(listeners + [id], id) == listeners
  {
    WithoutAppend(listeners, [id], id);
    WithoutAbsent(listeners, id);
    assert Without([id], id) == [];
  }

  /** Removal keeps the listeners distinct. */
  lemma {:induction false} WithoutNoDuplicates(listeners: seq<HookId>, id: HookId)
    requires NoDuplicates(listeners)
    ensures NoDuplicates(Without(listeners, id))
    decreases |listeners|
  {
    if listeners != [] {
      var tail := listeners[1..];
      assert NoDuplicates(tail) by {
        forall i, j | 0 <= i < j < |tail|
          ensures tail[i] != tail[j]
        {
          assert tail[i] == listeners[i + 1] && tail[j] == listeners[j + 1];
        }
      }
      WithoutNoDuplicates(tail, id);
      assert listeners[0] !in tail;
    }
  }

  /** The module-level state and every mounted hook's state. */
  class LanguageRegistry {
    var globalLanguage: string
    var listeners: seq<HookId>
    var storage: map<string, string>
    var hooks: map<HookId, Hook>

    /** Each mounted hook has registered exactly one listener. */
    ghost predicate Valid()
      reads this
    {
      NoDuplicates(listeners) && forall id :: id in listeners <==> id in hooks
    }

    /** Module load: `'EN'`, no listeners, and whatever storage already holds. */
    constructor (persisted: map<string, string>)
      ensures Valid()
      ensures globalLanguage == DefaultLanguage && listeners == []
      ensures storage == persisted && hooks == map[]
    {
      globalLanguage := DefaultLanguage;
      listeners := [];
      storage := persisted;
      hooks := map[];
    }

    /** A component mounts the hook: its state starts at `'EN'`; the effect
        restores a non-empty saved preference into the hook and the global
        value, then registers the hook's listener. Returns the saved value
        the pending languages request will see. */
    method Mount(id: HookId) returns (saved: Option<string>)
      requires Valid() && id !in hooks
      modifies this`globalLanguage, this`listeners, this`hooks
      ensures Valid()
      ensures saved == Saved(storage)
      ensures listeners == old(listeners) + [id]
      ensures globalLanguage == if TruthyOpt(saved) then saved.value else old(globalLanguage)
      ensures hooks == old(hooks)[id := Hook(if TruthyOpt(saved) then saved.value else DefaultLanguage, [])]
    {
      hooks := hooks[id := Hook(DefaultLanguage, [])];
      saved := Saved(storage);
      if TruthyOpt(saved) {
        globalLanguage := saved.value;
        hooks := hooks[id := hooks[id].(language := saved.value)];
      }
      listeners := listeners + [id];
    }

    /** The languages answer for hook `id` arrives. A usable answer becomes
        the hook's available list; when nothing was saved at mount, the first
        default entry's code becomes the global value, the hook's language
        and the stored preference. A hook that has unmounted meanwhile keeps
        no state, but the global value and storage still change. */
    method LanguagesLoaded(id: HookId, saved: Option<string>, answer: LanguagesAnswer)
      requires Valid()
      modifies this`globalLanguage, this`storage, this`hooks
      ensures Valid()
      ensures hooks.Keys == old(hooks).Keys
      ensures forall other :: other in hooks && other != id ==> hooks[other] == old(hooks)[other]
      ensures id in hooks ==>
        hooks[id].available ==
          (if Listing(answer).Some? then Listing(answer).value else old(hooks)[id].available)
      ensures var adopt := !TruthyOpt(saved) && DefaultCode(answer).Some?;
        globalLanguage == (if adopt then DefaultCode(answer).value else old(globalLanguage)) &&
        storage == (if adopt then old(storage)[StorageKey := DefaultCode(answer).value] else old(storage)) &&
        (id in hooks ==>
          hooks[id].language == (if adopt then DefaultCode(answer).value else old(hooks)[id].language))
    {
      match answer {
        case Thrown =>
        case Answer(success, data) =>
          if success && data.Listed? {
            if id in hooks {
              hooks := hooks[id := hooks[id].(available := data.entries)];
            }
            if !TruthyOpt(saved) {
              var found := FindDefault(data.entries);
              if found.Some? {
                var code := data.entries[found.value].shortCode;
                globalLanguage := code;
                if id in hooks {
                  hooks := hooks[id := hooks[id].(language := code)];
                }
                storage := storage[StorageKey := code];
              }
            }
          }
      }
    }

    /** `changeLanguage(lang)`: set the global value, persist it, and call
        every registered listener once with `lang`, in registration order;
        each listener sets its hook's language. `notified` is the order of
        the calls. */
    method ChangeLanguage(lang: string) returns (notified: seq<HookId>)
      requires Valid()
      modifies this`globalLanguage, this`storage, this`hooks
      ensures Valid()
      ensures globalLanguage == lang && storage == old(storage)[StorageKey := lang]
      ensures notified == listeners && NoDuplicates(notified)
      ensures hooks.Keys == old(hooks).Keys
      ensures forall id :: id in hooks ==> hooks[id] == old(hooks)[id].(language := lang)
    {
      globalLanguage := lang;
      storage := storage[StorageKey := lang];
      notified := [];
      var i := 0;
      while i < |listeners|
        invariant 0 <= i <= |listeners|
        invariant notified == listeners[..i]
        invariant globalLanguage == lang && storage == old(storage)[StorageKey := lang]
        invariant hooks.Keys == old(hooks).Keys
        invariant forall id :: id in hooks ==>
          hooks[id] == if id in listeners[..i] then old(hooks)[id].(language := lang) else old(hooks)[id]
      {
        var l := listeners[i];
        assert listeners[..i + 1] == listeners[..i] + [l];
        assert l !in listeners[..i];
        hooks := hooks[l := hooks[l].(language := lang)];
        notified := notified + [l];
        i := i + 1;
      }
      assert listeners[..i] == listeners;
    }

    /** The effect's cleanup on unmount: the hook's listener is filtered out
        of the list and its state goes away. */
    method Unmount(id: HookId)
      requires Valid()
      modifies this`listeners, this`hooks
      ensures Valid()
      ensures listeners == Without(old(listeners), id)
      ensures hooks == old(hooks) - {id}
    {
      WithoutNoDuplicates(listeners, id);
      listeners := Without(listeners, id);
      hooks := hooks - {id};
    }

    /** A hook's whole start: mount, then the languages answer. Its language
        is then the one the resolution rule gives. */
    method MountAndLoad(id: HookId, answer: LanguagesAnswer)
      requires Valid() && id !in hooks
      modifies this`globalLanguage, this`listeners, this`hooks, this`storage
      ensures Valid()
      ensures id in hooks && hooks[id].language == StartingLanguage(Saved(old(storage)), answer)
      ensures listeners == old(listeners) + [id]
    {
      var saved := Mount(id);
      LanguagesLoaded(id, saved, answer);
    }
  }
}
