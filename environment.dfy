// What the engine takes from its surroundings: the date library, whose
// formatting and time-zone arithmetic are left uninterpreted, and the
// process environment.
module Environment {

  /** The dayjs calls the engine makes, as fixed but arbitrary string functions. */
  datatype DateLib = DateLib(
    utcIso: string -> string,     // dayjs(x).utc().toISOString()
    formatDay: string -> string,  // dayjs(x).format('YYYY-MM-DD')
    isoDay: string -> string,     // dayjs(x).toISOString().split('T')[0]
    iso: string -> string)        // dayjs(x).toISOString()

  /** The environment variables the engine reads. */
  datatype Env = Env(
    minDate: string,                      // MIN_DATE
    maxDate: string,                      // MAX_DATE
    googleCallbacks: map<string, string>, // GOOGLE_CALLBACKS, parsed
    syncbotPrefix: string,                // SYNCBOT_PREFIX
    syncbotVersion: string)               // the bot's version string
}
