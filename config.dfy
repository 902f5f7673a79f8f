/** The backend's settings record and its built-in defaults (what applies when no environment overrides them). */
module Config {

  datatype Settings = Settings(
    openaiApiKey: string,
    geminiApiKey: string,
    aiProvider: string,
    openaiModel: string,
    geminiModel: string,
    appName: string,
    debug: bool)

  const Defaults: Settings := Settings(
    openaiApiKey := "",
    geminiApiKey := "",
    aiProvider := "openai",
    openaiModel := "gpt-4o-mini",
    geminiModel := "models/gemini-2.0-flash-lite",
    appName := "Food Suggestion AI",
    debug := false)
}
