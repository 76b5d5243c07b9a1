/**
 * The server's environment configuration (`process.env`) and the service clients
 * created from it at start-up. An unset variable is the empty string: JavaScript
 * treats `undefined` and `''` alike in the truthiness tests the server makes.
 */
module ServerEnv {

  datatype Config = Config(
    geminiKey: string,            // GOOGLE_GEMINI_KEY
    sendgridApiKey: string,       // SENDGRID_API_KEY
    emailFrom: string,            // EMAIL_FROM
    emergencyEmailTo: string,     // EMERGENCY_EMAIL_TO
    twilioAccountSid: string,     // TWILIO_ACCOUNT_SID
    twilioAuthToken: string,      // TWILIO_AUTH_TOKEN
    twilioPhoneNumber: string,    // TWILIO_PHONE_NUMBER
    emergencyPhoneNumber: string  // EMERGENCY_PHONE_NUMBER
  )

  /** A variable is truthy when it is set to a non-empty value. */
  predicate IsSet(v: string)
  {
    v != ""
  }

  /** `genAI` is created only when the Gemini key is set. */
  predicate HasGenAI(cfg: Config)
  {
    IsSet(cfg.geminiKey)
  }

  /** `twilioClient` is created only when both the account SID and the auth token are set. */
  predicate HasTwilioClient(cfg: Config)
  {
    IsSet(cfg.twilioAccountSid) && IsSet(cfg.twilioAuthToken)
  }
}
