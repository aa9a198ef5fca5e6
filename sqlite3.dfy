/**
 * The SQLite dialect: double-quoted identifiers and composite keys as a
 * `||` string concatenation; every pagination handler is the not-supported
 * stub, and there is no `unlimitedLimit`.
 */
module SQLite3 {
  import opened Text
  import opened Classes
  import PaginationNotSupported

  const Name: string := "sqlite3"

  /** `class Dialect extends PaginationNotSupported(function () { })`: name, quoting and keys of its own. */
  const Class: Proto :=
    Extend(PaginationNotSupported.Apply(EmptyBase),
           map[Member.Name := SQLite3Code, Member.Quote := SQLite3Code, Member.CompositeKey := SQLite3Code])

  /** `"str"`: the identifier between double quotes, unchanged. */
  function Quote(s: string): (r: string)
    ensures |r| == |s| + 2 && r[0] == '"' && r[|r| - 1] == '"'
    ensures r[1..|r| - 1] == s
  {
    "\"" + s + "\""
  }

  /**
   * `"p"."k1" || … || "p"."kn"`: empty text with no key, otherwise opening with
   * the first key column and closing with the last.
   */
  function CompositeKey(parent: string, keys: seq<string>): (r: string)
    ensures r == "" <==> |keys| == 0
    ensures |keys| >= 1 ==> Quote(parent) + "." + Quote(keys[0]) <= r
    ensures |keys| >= 1 ==> EndsWith(r, Quote(parent) + "." + Quote(keys[|keys| - 1]))
  {
    if |keys| >= 1 then
      JoinFrame(QualifiedKeys(Quote, parent, keys), " || ");
      Join(QualifiedKeys(Quote, parent, keys), " || ")
    else
      Join(QualifiedKeys(Quote, parent, keys), " || ")
  }

  /** Each further key is appended after ` || `. */
  lemma CompositeKeySnoc(parent: string, keys: seq<string>, key: string)
    requires |keys| >= 1
    ensures CompositeKey(parent, keys + [key]) == CompositeKey(parent, keys) + " || " + Quote(parent) + "." + Quote(key)
  {
    var q := QualifiedKeys(Quote, parent, keys);
    var qk := Quote(parent) + "." + Quote(key);
    assert QualifiedKeys(Quote, parent, keys + [key]) == q + [qk];
    JoinSnoc(q, qk, " || ");
    AppendAssociates(Join(q, " || ") + " || ", Quote(parent) + ".", Quote(key));
  }

  /**
   * One key yields just `"p"."k"`; each further key is appended after ` || `,
   * in order; and a key over any column starts with the quoted parent, so
   * there is no NULLIF guard around it.
   */
  lemma CompositeKeyTerms(parent: string, keys: seq<string>, key: string)
    ensures CompositeKey(parent, [key]) == Quote(parent) + "." + Quote(key)
    ensures |keys| >= 1 ==>
      CompositeKey(parent, keys + [key]) == CompositeKey(parent, keys) + " || " + Quote(parent) + "." + Quote(key)
    ensures |keys| >= 1 ==> Quote(parent) + "." <= CompositeKey(parent, keys)
  {
    if |keys| >= 1 {
      CompositeKeySnoc(parent, keys, key);
      assert Quote(parent) + "." <= Quote(parent) + "." + Quote(keys[0]);
    }
  }
}
