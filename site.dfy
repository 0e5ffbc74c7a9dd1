/**
 * The two URL builders the server endpoints take from their configuration,
 * `Config::user_url` and `Config::user_web_url`. The revision of `ferri-main/src/config/mod.rs`
 * modelled here has neither, so the server's handlers receive them as functions.
 */
module Site {
  datatype Site = Site(
    /** The ActivityPub URL of a user, built from the user's id. */
    userUrl: string -> string,
    /** The web (profile page) URL of a user, built from the username. */
    userWebUrl: string -> string)
}
