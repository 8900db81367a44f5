/** The shared constants of constants/Common.java that the core uses. */
module Common {

  /** The flow returned when no variant is configured. */
  const DEFAULT: string := "default"

  /** Provider identifier of the configuration-backed manager. */
  const LOCAL: string := "local"

  /** Provider identifier of the server-backed manager. */
  const SERVER: string := "server"
}
