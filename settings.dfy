/**
 * The greeter section of the process-wide configuration (`greeter_config->greeter`).
 * Loading it from disk is an external step; the model receives the loaded value.
 */
module Settings {
  datatype GreeterSettings = GreeterSettings(
    theme: string,
    debugMode: bool,
    secureMode: bool,
    detectThemeErrors: bool)
}
