/** The application settings the modelled code reads. Every setting is read
    as an attribute of the global `settings` object; here the values are
    given as one record. */
module Config {
  import opened Values

  datatype Settings = Settings(
    kafkaBrokers: Value,           // KAFKA_BROKERS
    kafkaConsumerGroup: Value,     // KAFKA_CONSUMER_GROUP
    discordWebhookUrl: Value,      // DISCORD_WEBHOOK_URL
    slackWebhookUrl: Value,        // SLACK_WEBHOOK_URL
    defaultToEmail: Value,         // EMAIL_CONFIG.DEFAULT_TO_EMAIL
    defaultSubject: Value)         // EMAIL_CONFIG.DEFAULT_SUBJECT
}
