/** The worker's environment: seven string bindings, each possibly absent. */
module Config {
  import opened Js

  datatype Env = Env(
    supabaseUrl: Option<string>,        // SUPABASE_URL
    supabaseKey: Option<string>,        // SUPABASE_KEY
    twilioAccountSid: Option<string>,   // TWILIO_ACCOUNT_SID
    twilioAuthToken: Option<string>,    // TWILIO_AUTH_TOKEN
    twilioApiKey: Option<string>,       // TWILIO_API_KEY
    twilioApiSecret: Option<string>,    // TWILIO_API_SECRET
    twilioWhatsappFrom: Option<string>) // TWILIO_WHATSAPP_FROM
}
