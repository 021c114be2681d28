/**
 * The three source buffers of the code sandbox, the keys under which they are
 * persisted in the browser's key-value store, their built-in defaults, and how
 * they are seeded from the store when the page loads.
 */
module Buffers {

  /** The three editor tabs; `currentLang` in the page is one of these. */
  datatype Lang = Html | Css | Js

  /**
   * The `data-lang` name of a tab, which is also its editor language id. The
   * three names have different lengths, which keeps the store keys apart.
   */
  function LangName(l: Lang): (name: string)
    ensures |name| == (match l case Html => 4 case Css => 3 case Js => 2)
  {
    match l
    case Html => "html"
    case Css => "css"
    case Js => "js"
  }

  const KeyPrefix: string := "ederstone-"

  /** The store flag written when the coding room is opened. */
  const CodedTodayKey: string := "codedToday"

  /**
   * The store key of a buffer: the prefix followed by the tab name. It is
   * never the coding-room flag, and it names exactly one buffer.
   */
  function StoreKey(l: Lang): (key: string)
    ensures key != CodedTodayKey
    ensures forall m: Lang :: KeyPrefix + LangName(m) == key <==> m == l
  {
    assert forall m: Lang :: |KeyPrefix + LangName(m)| == |KeyPrefix| + |LangName(m)|;
    KeyPrefix + LangName(l)
  }

  /** No two buffers share a store key, and no buffer uses the coding-room flag. */
  lemma StoreKeysDistinct(l: Lang, m: Lang)
    ensures StoreKey(l) == StoreKey(m) <==> l == m
    ensures StoreKey(l) != CodedTodayKey
  {
  }

  const DefaultHtml: string :=
    "<h1>Hello, Future Coder!</h1>\n<p>Welcome to your personal sandbox.</p>"
  const DefaultCss: string :=
    "body {\n  font-family: 'Exo 2', sans-serif;\n  background: #0D1117;\n  color: #00E5FF;\n  text-align: center;\n  padding: 2rem;\n}"
  const DefaultJs: string :=
    "// Try something fun!\nconsole.log(\"EDERSTONE TECH Running!\");"

  /** The sample content a buffer starts with when the store has nothing usable. */
  function Default(l: Lang): (d: string)
    ensures d != []
  {
    match l
    case Html => DefaultHtml
    case Css => DefaultCss
    case Js => DefaultJs
  }

  /**
   * `store.getItem(key) || default`: an absent key (null) and a stored empty
   * string are both falsy, so either one yields the default.
   */
  function Seed(store: map<string, string>, l: Lang): (v: string)
    ensures v != []
    ensures StoreKey(l) in store && store[StoreKey(l)] != [] ==> v == store[StoreKey(l)]
    ensures StoreKey(l) !in store || store[StoreKey(l)] == [] ==> v == Default(l)
  {
    if StoreKey(l) in store && store[StoreKey(l)] != "" then store[StoreKey(l)] else Default(l)
  }

  /** A buffer table holds an entry for every tab. */
  predicate Complete(buffers: map<Lang, string>) {
    forall l: Lang :: l in buffers
  }


  /**
   * What the store says about buffer `l` holding `v`: either the store has the
   * value under the buffer's key, or the store has nothing usable there and `v`
   * is the default, or the store and the buffer were both emptied by a save.
   */
  predicate Persisted(store: map<string, string>, l: Lang, v: string) {
    if StoreKey(l) in store && store[StoreKey(l)] != "" then store[StoreKey(l)] == v
    else v == Default(l) || (StoreKey(l) in store && v == "")
  }

  /** Every buffer of the table agrees with the store in the sense of Persisted. */
  predicate AllPersisted(store: map<string, string>, buffers: map<Lang, string>)
    requires Complete(buffers)
  {
    forall l: Lang :: Persisted(store, l, buffers[l])
  }

  /**
   * The `editorState` object built at page load: a non-empty buffer for every
   * tab, each agreeing with the store it was seeded from.
   */
  function SeedBuffers(store: map<string, string>): (buffers: map<Lang, string>)
    ensures Complete(buffers)
    ensures AllPersisted(store, buffers)
    ensures forall l: Lang :: buffers[l] != ""
  {
    map l: Lang | l.Html? || l.Css? || l.Js? :: Seed(store, l)
  }

  /** Freshly seeded buffers hold what reloading the page reads back. */
  lemma SeededIsPersisted(store: map<string, string>)
    ensures forall l: Lang :: SeedBuffers(store)[l] == Seed(store, l)
  {
  }

  /**
   * Writing `v` through to buffer `l` and its key keeps every buffer persisted:
   * the written one by construction, the others because their keys differ.
   */
  lemma WriteThroughPersisted(store: map<string, string>, buffers: map<Lang, string>, l: Lang, v: string)
    requires Complete(buffers) && AllPersisted(store, buffers)
    ensures Complete(buffers[l := v])
    ensures AllPersisted(store[StoreKey(l) := v], buffers[l := v])
  {
  }

  /** Setting the coding-room flag does not disturb any buffer's persisted copy. */
  lemma FlagWritePersisted(store: map<string, string>, buffers: map<Lang, string>, flag: string)
    requires Complete(buffers) && AllPersisted(store, buffers)
    ensures AllPersisted(store[CodedTodayKey := flag], buffers)
  {
  }

  /**
   * Reloading the page restores a persisted buffer exactly, unless the buffer
   * is empty.
   */
  lemma ReloadRestores(store: map<string, string>, l: Lang, v: string)
    requires Persisted(store, l, v) && v != ""
    ensures Seed(store, l) == v
  {
  }

  /**
   * An emptied buffer does not survive a reload: the stored empty string is
   * falsy, so seeding brings the sample content back.
   */
  lemma ReloadAfterEmptySave(store: map<string, string>, l: Lang)
    ensures Seed(store[StoreKey(l) := ""], l) == Default(l) != ""
  {
  }
}
