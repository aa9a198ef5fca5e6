/**
 * The MySQL 8 dialect: the MariaDB dialect under another name. Everything
 * but `name` is inherited.
 */
module MySQL8 {
  import opened Classes
  import MariaDB

  const Name: string := "mysql8"

  /** `class Dialect extends MariaDB`: only the name getter is its own. */
  const Class: Proto := Extend(MariaDB.Class, map[Member.Name := MySQL8Code])
}
