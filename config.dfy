/** The analysis constants of the repository's `Config` class. */
module Config {

  /** File extensions (and two whole file names) the repository analyser accepts. */
  const SupportedExtensions: set<string> := {
    ".py", ".js", ".ts", ".java", ".go", ".rs", ".cpp", ".cs",
    ".yml", ".yaml", ".json", ".xml", ".toml",
    ".tf", ".hcl",
    ".md", ".rst",
    "Dockerfile", "docker-compose.yml", ".dockerfile"
  }

  /** Substrings that make a path ignored; matched literally, so the `*` entries never glob. */
  const IgnorePatterns: seq<string> := [
    "__pycache__", ".git", "node_modules", "venv",
    ".env", ".venv", "dist", "build", "target",
    "*.log", "*.tmp", ".DS_Store"
  ]

  /** Joined-length bound of a heuristic chunk, in characters. */
  const ChunkSize: nat := 1000

  /** The file categories with their extensions, in declaration order. */
  const FileCategories: seq<(string, seq<string>)> := [
    ("app_code", [".py", ".js", ".ts", ".java", ".go", ".rs", ".cpp", ".cs"]),
    ("infra", [".tf", ".hcl", "Dockerfile", ".yml", ".yaml", "docker-compose.yml"]),
    ("config", [".json", ".xml", ".toml", ".env", ".cfg", ".ini"]),
    ("docs", [".md", ".rst", ".txt"])
  ]
}
