/**
 * The category table: a label, an emoji and a colour per category, in
 * declaration order, and the key list read off that table.
 */
module Categories {
  import opened Wrappers
  import opened TaskTypes

  /** A category's config; `title` holds the source's `label` field (`label` is a Dafny keyword). */
  datatype CategoryConfig = CategoryConfig(title: string, emoji: string, color: string)

  /** The entries of the `CATEGORIES` object literal, in the order they are written. */
  const CategoryTable: seq<(TaskCategory, CategoryConfig)> := [
    (Work, CategoryConfig("Work", "\U{1F4BC}", "#3B82F6")),
    (Health, CategoryConfig("Health", "\U{1F4AA}", "#10B981")),
    (Personal, CategoryConfig("Personal", "\U{1F3E0}", "#F59E0B")),
    (Learning, CategoryConfig("Learning", "\U{1F4DA}", "#8B5CF6")),
    (Errands, CategoryConfig("Errands", "\U{1F3C3}", "#EF4444")),
    (Social, CategoryConfig("Social", "\U{1F465}", "#EC4899")),
    (Creative, CategoryConfig("Creative", "\U{1F3A8}", "#06B6D4")),
    (Other, CategoryConfig("Other", "\U{1F4CC}", "#6B7280"))
  ]

  /** `Object.keys(table)`: the keys in insertion order. */
  function KeysOf(table: seq<(TaskCategory, CategoryConfig)>): (keys: seq<TaskCategory>)
    ensures |keys| == |table|
    ensures forall i :: 0 <= i < |table| ==> keys[i] == table[i].0
  {
    if table == [] then [] else [table[0].0] + KeysOf(table[1..])
  }

  /** `CATEGORY_KEYS`. */
  function CategoryKeys(): seq<TaskCategory> {
    KeysOf(CategoryTable)
  }

  /** `table[key]`: the config stored under `key`, if any. */
  function LookupIn(table: seq<(TaskCategory, CategoryConfig)>, key: TaskCategory): (r: Option<CategoryConfig>)
    ensures r.Some? <==> key in KeysOf(table)
    ensures r.Some? ==> exists i :: 0 <= i < |table| && table[i] == (key, r.value)
  {
    if table == [] then None
    else if table[0].0 == key then Some(table[0].1)
    else
      var r := LookupIn(table[1..], key);
      assert r.Some? ==> exists i :: 0 <= i < |table| - 1 && table[1..][i] == (key, r.value);
      r
  }

  /** `CATEGORIES[c]`. */
  function ConfigOf(c: TaskCategory): (cfg: CategoryConfig)
    ensures exists i :: 0 <= i < |CategoryTable| && CategoryTable[i] == (c, cfg)
  {
    KeysTotal();
    LookupIn(CategoryTable, c).value
  }

  /** The key list read off the table literal. */
  lemma KeysListed()
    ensures CategoryKeys() == [Work, Health, Personal, Learning, Errands, Social, Creative, Other]
  {
    var keys := CategoryKeys();
    assert |keys| == 8;
    assert keys[0] == CategoryTable[0].0 == Work;
    assert keys[1] == CategoryTable[1].0 == Health;
    assert keys[2] == CategoryTable[2].0 == Personal;
    assert keys[3] == CategoryTable[3].0 == Learning;
    assert keys[4] == CategoryTable[4].0 == Errands;
    assert keys[5] == CategoryTable[5].0 == Social;
    assert keys[6] == CategoryTable[6].0 == Creative;
    assert keys[7] == CategoryTable[7].0 == Other;
  }

  /** Each key sits at the position of its category in the union. */
  lemma KeysIndexed()
    ensures |CategoryKeys()| == 8
    ensures forall i :: 0 <= i < |CategoryKeys()| ==> CategoryIndex(CategoryKeys()[i]) == i
    ensures forall c: TaskCategory :: CategoryKeys()[CategoryIndex(c)] == c
  {
    KeysListed();
  }

  /** No category is listed twice. */
  lemma KeysDistinct()
    ensures forall i, j :: 0 <= i < j < |CategoryKeys()| ==> CategoryKeys()[i] != CategoryKeys()[j]
  {
    KeysIndexed();
    var keys := CategoryKeys();
    forall i, j | 0 <= i < j < |keys| ensures keys[i] != keys[j] {
      assert CategoryIndex(keys[i]) == i && CategoryIndex(keys[j]) == j;
    }
  }

  /** Every category is listed, so every lookup in the table finds a config. */
  lemma KeysTotal()
    ensures forall c: TaskCategory :: c in CategoryKeys()
    ensures forall c: TaskCategory :: LookupIn(CategoryTable, c).Some?
  {
    KeysIndexed();
    var keys := CategoryKeys();
    forall c: TaskCategory ensures c in keys && LookupIn(CategoryTable, c).Some? {
      assert keys[CategoryIndex(c)] == c;
    }
  }

  /**
   * `CATEGORY_KEYS` lists the eight categories once each, in declaration
   * order, and is exactly the key set of `CATEGORIES`; so every lookup,
   * including the `'other'` fallback, finds a config.
   */
  lemma KeysCoverCategories()
    ensures CategoryKeys() == [Work, Health, Personal, Learning, Errands, Social, Creative, Other]
    ensures forall c: TaskCategory :: c in CategoryKeys()
    ensures forall i, j :: 0 <= i < j < |CategoryKeys()| ==> CategoryKeys()[i] != CategoryKeys()[j]
    ensures forall c: TaskCategory :: LookupIn(CategoryTable, c).Some?
  {
    KeysListed();
    KeysDistinct();
    KeysTotal();
  }

  /**
   * The table is written in the order of the `TaskCategory` union, so
   * `CATEGORIES[c]` is the entry at the category's position; in particular
   * `'other'`, the fallback of every `?? 'other'` lookup, has its own config.
   */
  lemma ConfigAtPosition(c: TaskCategory)
    ensures CategoryTable[CategoryIndex(c)].0 == c
    ensures ConfigOf(c) == CategoryTable[CategoryIndex(c)].1
  {
    var keys := CategoryKeys();
    KeyAtIndex(c);
    var i :| 0 <= i < |CategoryTable| && CategoryTable[i] == (c, ConfigOf(c));
    IndexOfKey(i);
  }

  /** The key at a category's position is that category. */
  lemma KeyAtIndex(c: TaskCategory)
    ensures CategoryIndex(c) < |CategoryKeys()| && CategoryKeys()[CategoryIndex(c)] == c
  {
    KeysIndexed();
  }

  /** The key at position `i` has position `i` in the union. */
  lemma IndexOfKey(i: int)
    requires 0 <= i < |CategoryTable|
    ensures CategoryIndex(CategoryTable[i].0) == i
  {
    KeysIndexed();
    assert CategoryKeys()[i] == CategoryTable[i].0;
  }

  /** The fallback category `'other'` has its own config. */
  lemma OtherHasConfig()
    ensures ConfigOf(Other) == CategoryConfig("Other", "\U{1F4CC}", "#6B7280")
  {
    ConfigAtPosition(Other);
  }
}
