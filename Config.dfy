/**
 * The configuration constants of Librarian 2.0 (librarian2/config.py), with
 * the default values used when no environment variable overrides them.
 */
module Config {
  import opened Dicts

  const LIBRARIAN_DB: string := @"C:\Users\grego\Desktop\LearningWorkflow\librarian.db"
  const SAPPHIRE_DB: string := @"C:\Users\grego\Desktop\LearningWorkflow\sapphire_torus.db"

  /** Known repositories, name to checkout path, in declaration order. */
  const REPOS: Dict<string> := [
    ("coach", @"C:\Users\grego\Desktop\CloudEye\production\cloudeye-coach"),
    ("lxr-5", @"C:\Users\grego\Desktop\CloudEye\production\lxr-5"),
    ("lxr", @"C:\Users\grego\Desktop\CloudEye\production\cloudeye-lxr-railway"),
    ("ui", @"C:\Users\grego\Desktop\CloudEye\production\cloudeye-ui"),
    ("omni", @"C:\Users\grego\Desktop\CloudEye\production\omni-os-blueprint"),
    ("bridge", @"C:\Users\grego\Desktop\CloudEye\production\cloud-eye-mcp-bridge")
  ]

  /** Railway services, name to base URL, in declaration order. */
  const SERVICES: Dict<string> := [
    ("lxr-5", "https://lxr-5-production.up.railway.app"),
    ("coach", "https://cloudeye-coach-production.up.railway.app"),
    ("coach-fe", "https://coach-frontend-production.up.railway.app"),
    ("ui", "https://cloudeye-ui-production.up.railway.app"),
    ("lxr", "https://cloudeye-lxr-production.up.railway.app")
  ]

  const HTTP_TIMEOUT: nat := 8
  const SCAN_CURRENT_FOCUS_LIMIT: nat := 20
  const SCAN_ESSENCE_LIMIT: nat := 10
  const ILLUSION_RECENT_HOURS: nat := 72

  /** `Path(base) / part` on Windows. */
  function PathJoin(base: string, part: string): string {
    base + @"\" + part
  }
}
