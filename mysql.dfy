/**
 * The MySQL (5.x) dialect: backtick quoting and an unguarded CONCAT for keys;
 * every pagination handler is the not-supported stub, and there is no
 * `unlimitedLimit`.
 */
module MySQL {
  import opened Text
  import opened Classes
  import PaginationNotSupported
  import MariaDB

  const Name: string := "mysql"

  /** `class Dialect extends PaginationNotSupported(function () { })`: name, quoting and keys of its own. */
  const Class: Proto :=
    Extend(PaginationNotSupported.Apply(EmptyBase),
           map[Member.Name := MySQLCode, Member.Quote := MySQLCode, Member.CompositeKey := MySQLCode])

  /** `` `str` ``: the identifier between backticks, unchanged. */
  function Quote(s: string): (r: string)
    ensures |r| == |s| + 2 && r[0] == '`' && r[|r| - 1] == '`'
    ensures r[1..|r| - 1] == s
  {
    "`" + s + "`"
  }

  /**
   * `CONCAT(`p`.`k1`, …, `p`.`kn`)`, with no NULLIF guard: it opens with the
   * first key column and closes after the last.
   */
  function CompositeKey(parent: string, keys: seq<string>): (r: string)
    ensures |keys| == 0 ==> r == "CONCAT()"
    ensures |keys| >= 1 ==> "CONCAT(" + (Quote(parent) + "." + Quote(keys[0])) <= r
    ensures |keys| >= 1 ==> EndsWith(r, Quote(parent) + "." + Quote(keys[|keys| - 1]) + ")")
  {
    if |keys| >= 1 then
      WrappedJoinFrame("CONCAT(", QualifiedKeys(Quote, parent, keys), ", ", ")");
      "CONCAT(" + Join(QualifiedKeys(Quote, parent, keys), ", ") + ")"
    else
      "CONCAT(" + Join(QualifiedKeys(Quote, parent, keys), ", ") + ")"
  }

  /** The code is written out again, but quotes and composite keys agree with MariaDB's on every input. */
  lemma AgreesWithMariaDB(s: string, parent: string, keys: seq<string>)
    ensures Quote(s) == MariaDB.Quote(s)
    ensures CompositeKey(parent, keys) == MariaDB.CompositeKey(parent, keys)
  {
    assert QualifiedKeys(Quote, parent, keys) == QualifiedKeys(MariaDB.Quote, parent, keys);
  }
}
