/**
 * The part of the scanner's configuration that the detection engine reads.
 * The defaults are the settings the tool falls back to when no configuration
 * file is found.
 */
module Config {

  datatype Settings = Settings(
    testPayloads: seq<string>,      // error-based payloads, tried in order
    errorPatterns: seq<string>,     // database error signatures, as regular expressions
    commonDirectories: seq<string>  // directory-listing candidates, relative to the base URL
  )

  const DefaultTestPayloads: seq<string> := [
    "'",
    "';",
    "''",
    "--",
    "#",
    "' OR '1'='1",
    "' OR '1'='1' --",
    "' UNION SELECT NULL --",
    "' AND 1=1 --",
    "' AND 1=2 --"
  ]

  const DefaultErrorPatterns: seq<string> := [
    "SQL syntax.*MySQL",
    "Warning.*mysql_",
    "valid MySQL result",
    "MySqlClient\\.",
    "PostgreSQL.*ERROR",
    "Warning.*pg_",
    "valid PostgreSQL result",
    "Npgsql\\.",
    "Driver.*SQL SERVER",
    "OLE DB.*SQL SERVER",
    "SQL Server.*Driver",
    "Warning.*mssql_",
    "Microsoft OLE DB Provider for ODBC Drivers",
    "Microsoft OLE DB Provider for SQL Server",
    "Unclosed quotation mark after the character string",
    "ODBC SQL Server Driver",
    "ODBC Driver.*for SQL Server",
    "Oracle.*Driver",
    "Oracle error",
    "quoted string not properly terminated",
    "JET Database Engine",
    "Access Database Engine",
    "ODBC Microsoft Access Driver"
  ]

  const DefaultCommonDirectories: seq<string> := [
    "admin/", "backup/", "database/", "config/", "includes/",
    "temp/", "logs/", "cache/", "uploads/", "files/",
    "old/", "new/", "test/", "dev/", "staging/",
    "sql/", "data/", "scripts/", "lib/", "src/"
  ]

  const DefaultSettings := Settings(DefaultTestPayloads, DefaultErrorPatterns, DefaultCommonDirectories)
}
