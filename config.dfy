/** The bot's configuration (config.py): the manager allow-list and the
    status labels. Environment lookups (bot token, form secret, webhook URL)
    are not modelled here; the form secret is a parameter of the form
    handler. */
module Config {
  import opened Wrappers
  import opened Text

  /** One entry of `MANAGERS`: the manager's chat user id (its key), display
      name (`name`) and the form of the name used after "by" (`nameBy`). */
  datatype Manager = Manager(id: string, name: string, nameBy: string)

  /** `MANAGERS`, in the dict's insertion order. */
  const MANAGERS: seq<Manager> := [
    Manager("675120396", "Даша", "Дашай"),
    Manager("8153757571", "Юля", "Юляй")
  ]

  const STATUS_NEW: string := "Новая"
  const STATUS_CLAIMED_PREFIX: string := "Апрацоўваецца"
  const STATUS_WILL_COME: string := "✅ Прыедзе"
  const STATUS_CANCELED_CLIENT: string := "❌ Адмена"
  const STATUS_ALERTED: string := "🔔 Апавешчаны"
  const STATUS_COMPLETED: string := "🏁 Завершана"

  /** What the `MANAGERS` dict guarantees and the handlers rely on: ids are
      distinct keys, ids are chat user ids (no `|`, the callback-data
      separator), and every name has a first letter for the claim button. */
  predicate ManagersOk(ms: seq<Manager>) {
    && (forall i, j :: 0 <= i < j < |ms| ==> ms[i].id != ms[j].id)
    && (forall i :: 0 <= i < |ms| ==> ms[i].name != "" && '|' !in ms[i].id)
  }

  /** `MANAGERS.get(key)`, where `key` may be None (a callback without a
      parameter). */
  function Lookup(ms: seq<Manager>, key: Option<string>): (r: Option<Manager>)
    ensures r.Some? ==> key == Some(r.value.id) && r.value in ms
    ensures r.None? ==> key.None? || forall i :: 0 <= i < |ms| ==> ms[i].id != key.value
    decreases |ms|
  {
    if key.None? || |ms| == 0 then None
    else if ms[0].id == key.value then Some(ms[0])
    else Lookup(ms[1..], key)
  }

  /** With distinct ids, looking up a manager's id finds that manager. */
  lemma {:induction false} LookupFinds(ms: seq<Manager>, i: int)
    requires ManagersOk(ms) && 0 <= i < |ms|
    ensures Lookup(ms, Some(ms[i].id)) == Some(ms[i])
    decreases |ms|
  {
    if i > 0 {
      assert ms[0].id != ms[i].id;
      assert ManagersOk(ms[1..]);
      LookupFinds(ms[1..], i - 1);
    }
  }

  /** The configured allow-list meets what the handlers rely on. */
  lemma ConfiguredManagersOk()
    ensures ManagersOk(MANAGERS)
  {
  }

  /** The completed label differs from every other fixed status label, no
      update label holds the callback-data separator, and neither the new
      nor the completed label starts with the claimed prefix. */
  lemma StatusLabelsDistinct()
    ensures STATUS_COMPLETED != STATUS_NEW && STATUS_COMPLETED != STATUS_WILL_COME
    ensures STATUS_COMPLETED != STATUS_ALERTED && STATUS_COMPLETED != STATUS_CANCELED_CLIENT
    ensures '|' !in STATUS_WILL_COME && '|' !in STATUS_ALERTED && '|' !in STATUS_CANCELED_CLIENT
    ensures !StartsWith(STATUS_NEW, STATUS_CLAIMED_PREFIX)
    ensures !StartsWith(STATUS_COMPLETED, STATUS_CLAIMED_PREFIX)
  {
  }
}
